/** The records decoded from the catalogue API (Models/Character.swift, Models/Episode.swift). */
module Models {

  datatype Origin = Origin(name: string)

  datatype LastKnownLocation = LastKnownLocation(name: string)

  /** A character as decoded from the API. */
  datatype Character = Character(
    id: int,
    name: string,
    status: string,
    gender: string,
    origin: Origin,
    location: LastKnownLocation,
    image: string,
    episode: seq<string>)

  /** An episode as decoded from the API. */
  datatype Episode = Episode(
    id: int,
    name: string,
    airDate: string,
    episode: string,
    characters: seq<string>)

  /** The character's `==`: two records are the same character when their ids agree. */
  predicate Equals(lhs: Character, rhs: Character)
  {
    lhs.id == rhs.id
  }

  /** `==` holds exactly when the ids agree, whatever the other fields hold. */
  lemma EqualsIffSameId(a: Character, b: Character)
    ensures Equals(a, b) <==> a.id == b.id
    ensures a.id != b.id ==> !Equals(a, b)
  {
  }

  /** `==` is an equivalence relation. */
  lemma EqualsIsEquivalence(a: Character, b: Character, c: Character)
    ensures Equals(a, a)
    ensures Equals(a, b) ==> Equals(b, a)
    ensures Equals(a, b) && Equals(b, c) ==> Equals(a, c)
  {
  }

  /** Two records differing in every field but the id are equal; so `==` is strictly coarser than
      structural equality. */
  lemma EqualsIgnoresPayload()
    ensures exists a: Character, b: Character :: a != b && Equals(a, b)
  {
    var a := Character(1, "Rick Sanchez", "Alive", "Male", Origin("Earth (C-137)"),
                       LastKnownLocation("Citadel of Ricks"), "1.jpeg", ["1"]);
    var b := Character(1, "Rick", "Dead", "Unknown", Origin("unknown"),
                       LastKnownLocation("Earth"), "", []);
    assert a != b && Equals(a, b);
  }
}
