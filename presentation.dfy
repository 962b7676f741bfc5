/** The pieces of the presentation layer the reducers touch: the alert they present and the
    actions a presented child (an alert, a sheet) sends back to its parent. */
module Presentation {

  /** An action of a presented child: one of its own actions, or the request to dismiss it. */
  datatype PresentationAction<+A> = Presented(action: A) | Dismiss

  /** A modal alert with a title, a message and a single cancel-role button. */
  datatype AlertState = AlertState(title: string, message: string, cancelButton: string)
}
