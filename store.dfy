/** The user store `user_data` of main.py: a dictionary from the user's id to
    their record, kept in insertion order and written to disk on every change. */
module Store {
  import opened Wrappers

  /** A Telegram user id. The store's keys are its decimal strings and the
      FSM storage keys are the ints; the conversion is one to one. */
  type UserId = int

  datatype PetInfo = PetInfo(kind: string, name: string, age: string)

  /** One completed survey: the formatted local date and the answers in the
      order the questions were asked. */
  datatype Survey = Survey(date: string, answers: seq<string>)

  /** A record of `user_data`. A record created while registering or answering
      has no "pet_info" key, which `.get` reads as None. */
  datatype UserRecord = UserRecord(
    username: Option<string>,
    firstName: string,
    petInfo: Option<PetInfo>,
    surveys: seq<Survey>)

  /** The parts of `message.from_user` that the handlers read. */
  datatype Sender = Sender(id: UserId, username: Option<string>, firstName: string)

  /** QUESTIONS, in English; the bot asks them in Russian. */
  const QUESTIONS: seq<string> := [
    "What did you do for your pet today?",
    "Was anything hard or inconvenient with your pet?",
    "What pleased or upset you or your pet today?"
  ]

  /** The record a handler creates for a sender it does not know: no pet, no surveys. */
  function NewRecord(s: Sender): UserRecord {
    UserRecord(s.username, s.firstName, None, [])
  }

  predicate Distinct(keys: seq<UserId>) {
    forall i, j :: 0 <= i < j < |keys| ==> keys[i] != keys[j]
  }

  /** `keys` is the insertion order of a dictionary whose key set is `ids`. */
  predicate IsKeyOrder(keys: seq<UserId>, ids: set<UserId>) {
    && Distinct(keys)
    && (forall x :: x in keys ==> x in ids)
    && (forall x :: x in ids ==> x in keys)
  }

  /** The key order after `del d[id]`: the remaining keys keep their order. */
  function Without(keys: seq<UserId>, id: UserId): (r: seq<UserId>)
    ensures forall x :: x in r <==> x in keys && x != id
    ensures Distinct(keys) ==> Distinct(r)
    ensures id !in keys ==> r == keys
    ensures |r| <= |keys|
  {
    if keys == [] then []
    else if keys[0] == id then Without(keys[1..], id)
    else
      var rest := Without(keys[1..], id);
      assert Distinct(keys) ==> keys[0] !in keys[1..];
      assert forall i :: 0 < i <= |rest| ==> ([keys[0]] + rest)[i] == rest[i - 1];
      [keys[0]] + rest
  }

  /** Inserting a new key puts it at the end of the order. */
  lemma AppendKey(keys: seq<UserId>, ids: set<UserId>, id: UserId)
    requires IsKeyOrder(keys, ids) && id !in ids
    ensures IsKeyOrder(keys + [id], ids + {id})
  {
  }

  /** Every survey of the record has one answer per question. */
  predicate Complete(rec: UserRecord) {
    forall k :: 0 <= k < |rec.surveys| ==> |rec.surveys[k].answers| == |QUESTIONS|
  }

  /** Every record of the store is complete. Not an invariant of the store
      itself (the file it is loaded from may hold anything), but one that every
      handler preserves. */
  predicate WellFormed(users: map<UserId, UserRecord>) {
    forall id :: id in users ==> Complete(users[id])
  }
}
