/** The bot's handlers (main.py:68-295) over one object that holds the user
    store and the FSM storage. Each handler is one sequential step, and the
    handlers for one user are taken to run one at a time; the sends a handler
    makes are returned in order. */
module Bot {
  import opened Wrappers
  import opened Store
  import opened Conversation
  import History

  /** The number of surveys a user has in the store; 0 for an unknown user. */
  function SurveyCount(users: map<UserId, UserRecord>, id: UserId): nat {
    if id in users then |users[id].surveys| else 0
  }

  class DiaryBot {
    /** `user_data`. */
    var users: map<UserId, UserRecord>
    /** The insertion order of `user_data`'s keys. */
    var keys: seq<UserId>
    /** The FSM storage: a user without an entry has the Cleared context. */
    var sessions: map<UserId, Session>
    /** The store as `save_user_data` last wrote it. */
    ghost var saved: map<UserId, UserRecord>

    ghost predicate Valid()
      reads this
    {
      && IsKeyOrder(keys, users.Keys)
      && forall id :: id in sessions ==> SessionOk(sessions[id])
    }

    function SessionOf(id: UserId): Session
      reads this
    {
      if id in sessions then sessions[id] else Cleared
    }

    /** Start-up: the store read by `load_user_data` (keys in file order) and an
        empty in-memory FSM storage. */
    constructor (loaded: map<UserId, UserRecord>, order: seq<UserId>)
      requires IsKeyOrder(order, loaded.Keys)
      ensures Valid()
      ensures users == loaded && keys == order && sessions == map[] && saved == loaded
    {
      users := loaded;
      keys := order;
      sessions := map[];
      saved := loaded;
    }

    /** Adds a record with the sender's names, no pet and no surveys, to end of the order. */
    method AddRecord(s: Sender)
      requires Valid() && s.id !in users
      modifies this
      ensures Valid()
      ensures users == old(users)[s.id := NewRecord(s)] && keys == old(keys) + [s.id]
      ensures sessions == old(sessions) && saved == old(saved)
    {
      AppendKey(keys, users.Keys, s.id);
      users := users[s.id := NewRecord(s)];
      keys := keys + [s.id];
    }

    /** `/start`: registers an unknown sender; a known one keeps their record. */
    method Start(s: Sender) returns (out: seq<Outgoing>)
      requires Valid()
      modifies this
      ensures Valid()
      ensures s.id in old(users) ==> users == old(users) && keys == old(keys) && saved == old(saved)
      ensures s.id !in old(users) ==>
                && users == old(users)[s.id := NewRecord(s)]
                && keys == old(keys) + [s.id]
                && saved == users
      ensures sessions == old(sessions)
      ensures WellFormed(old(users)) ==> WellFormed(users)
      ensures out == [Outgoing(s.id, Welcome(s.firstName))]
    {
      if s.id !in users {
        AddRecord(s);
        saved := users;
      }
      out := [Outgoing(s.id, Welcome(s.firstName))];
    }

    /** `/stop`: deletes the sender's record, history included. The FSM context
        is left as it is. */
    method Stop(s: Sender) returns (out: seq<Outgoing>)
      requires Valid()
      modifies this
      ensures Valid()
      ensures users == old(users) - {s.id}
      ensures keys == Without(old(keys), s.id)
      ensures sessions == old(sessions)
      ensures s.id in old(users) ==> saved == users && out == [Outgoing(s.id, Unsubscribed)]
      ensures s.id !in old(users) ==>
                users == old(users) && saved == old(saved) && out == [Outgoing(s.id, NotSubscribed)]
      ensures WellFormed(old(users)) ==> WellFormed(users)
    {
      if s.id in users {
        users := users - {s.id};
        keys := Without(keys, s.id);
        saved := users;
        out := [Outgoing(s.id, Unsubscribed)];
      } else {
        assert users - {s.id} == users;
        out := [Outgoing(s.id, NotSubscribed)];
      }
    }

    /** `start_registration`: whatever flow was in progress, the user is now
        asked the first registration question. */
    method StartRegistration(id: UserId) returns (out: seq<Outgoing>)
      requires Valid()
      modifies this
      ensures Valid()
      ensures sessions == old(sessions)[id := RegistrationStarted(old(SessionOf(id)))]
      ensures StageOf(SessionOf(id)) == Registering(1)
      ensures users == old(users) && keys == old(keys) && saved == old(saved)
      ensures out == [Outgoing(id, PetQuestion(1))]
    {
      sessions := sessions[id := SessionOf(id).(phase := AwaitingPetType)];
      out := [Outgoing(id, PetQuestion(1))];
    }

    /** `start_survey`: whatever flow was in progress, the user is now at
        question 0 with no answers ("last writer wins"). */
    method StartSurvey(id: UserId) returns (out: seq<Outgoing>)
      requires Valid()
      modifies this
      ensures Valid()
      ensures sessions == old(sessions)[id := SurveyStarted(old(SessionOf(id)), id)]
      ensures SessionOf(id).phase == AwaitingAnswer
      ensures SessionOf(id).data.currentQuestion == Some(0) && SessionOf(id).data.answers == Some([])
      ensures users == old(users) && keys == old(keys) && saved == old(saved)
      ensures out == [Outgoing(id, SurveyQuestion(0))]
    {
      var s := SessionOf(id);
      sessions := sessions[id := s.(data := s.data.(currentQuestion := Some(0), answers := Some([]),
                                                    surveyUser := Some(id)))];
      sessions := sessions[id := sessions[id].(phase := AwaitingAnswer)];
      out := [Outgoing(id, SurveyQuestion(0))];
    }

    /** `/survey`: registration first for a user without a pet, the survey otherwise. */
    method SurveyCommand(s: Sender) returns (out: seq<Outgoing>)
      requires Valid()
      modifies this
      ensures Valid()
      ensures sessions == old(sessions)[s.id := FlowStart(old(users), old(SessionOf(s.id)), s.id)]
      ensures users == old(users) && keys == old(keys) && saved == old(saved)
      ensures out == [Outgoing(s.id, FirstPrompt(users, s.id))]
    {
      if NeedsRegistration(users, s.id) {
        out := StartRegistration(s.id);
      } else {
        out := StartSurvey(s.id);
      }
    }

    /** `/editpet`: restarts registration, with or without a pet on record. */
    method EditPet(s: Sender) returns (out: seq<Outgoing>)
      requires Valid()
      modifies this
      ensures Valid()
      ensures sessions == old(sessions)[s.id := RegistrationStarted(old(SessionOf(s.id)))]
      ensures users == old(users) && keys == old(keys) && saved == old(saved)
      ensures out == [Outgoing(s.id, PetQuestion(1))]
    {
      out := StartRegistration(s.id);
    }

    /** `/pet`: shows the pet on record, or says there is none. Reads only. */
    method PetCommand(s: Sender) returns (out: seq<Outgoing>)
      ensures |out| == 1 && out[0].to == s.id
      ensures out[0].reply == NoPet <==> NeedsRegistration(users, s.id)
      ensures out[0].reply.PetCard? ==> Some(out[0].reply.pet) == users[s.id].petInfo
      ensures !NeedsRegistration(users, s.id) ==> out[0].reply == PetCard(users[s.id].petInfo.value)
    {
      if s.id !in users || users[s.id].petInfo.None? {
        out := [Outgoing(s.id, NoPet)];
      } else {
        out := [Outgoing(s.id, PetCard(users[s.id].petInfo.value))];
      }
    }

    /** `/history`: the ten most recent surveys, newest first. Reads only. */
    method HistoryCommand(s: Sender) returns (out: seq<Outgoing>)
      ensures |out| == 1 && out[0].to == s.id
      ensures out[0].reply == NoHistory <==> SurveyCount(users, s.id) == 0
      ensures out[0].reply != NoHistory ==>
                && out[0].reply.HistoryText?
                && out[0].reply.lines == History.Render(users[s.id].surveys)
                && History.ParseHistory(out[0].reply.lines) == Some(History.RecentFirst(users[s.id].surveys))
                && |History.RecentFirst(users[s.id].surveys)| == History.Min(History.HISTORY_LIMIT, SurveyCount(users, s.id))
    {
      if s.id !in users || users[s.id].surveys == [] {
        out := [Outgoing(s.id, NoHistory)];
      } else {
        var lines := History.RenderHistory(users[s.id].surveys);
        History.RecentFirstAt(users[s.id].surveys);
        out := [Outgoing(s.id, HistoryText(lines))];
      }
    }

    /** `process_pet_type`: stores the text as the pet's kind and asks for its name. */
    method PetTypeStep(s: Sender, text: string) returns (out: seq<Outgoing>)
      requires Valid() && SessionOf(s.id).phase == AwaitingPetType
      modifies this
      ensures Valid()
      ensures sessions == old(sessions)[s.id := Session(AwaitingPetName, old(SessionOf(s.id)).data.(petType := Some(text)))]
      ensures users == old(users) && keys == old(keys) && saved == old(saved)
      ensures out == [Outgoing(s.id, PetQuestion(2))]
    {
      var ctx := SessionOf(s.id);
      sessions := sessions[s.id := ctx.(data := ctx.data.(petType := Some(text)))];
      sessions := sessions[s.id := sessions[s.id].(phase := AwaitingPetName)];
      out := [Outgoing(s.id, PetQuestion(2))];
    }

    /** `process_pet_name`: stores the text as the pet's name and asks for its age. */
    method PetNameStep(s: Sender, text: string) returns (out: seq<Outgoing>)
      requires Valid() && SessionOf(s.id).phase == AwaitingPetName
      modifies this
      ensures Valid()
      ensures sessions == old(sessions)[s.id := Session(AwaitingPetAge, old(SessionOf(s.id)).data.(petName := Some(text)))]
      ensures users == old(users) && keys == old(keys) && saved == old(saved)
      ensures out == [Outgoing(s.id, PetQuestion(3))]
    {
      var ctx := SessionOf(s.id);
      sessions := sessions[s.id := ctx.(data := ctx.data.(petName := Some(text)))];
      sessions := sessions[s.id := sessions[s.id].(phase := AwaitingPetAge)];
      out := [Outgoing(s.id, PetQuestion(3))];
    }

    /** `process_pet_age`: writes the pet into the record (creating the record
        if needed, keeping its surveys otherwise), saves, clears the FSM data
        and starts the survey. */
    method PetAgeStep(s: Sender, text: string) returns (out: seq<Outgoing>)
      requires Valid() && SessionOf(s.id).phase == AwaitingPetAge
      modifies this
      ensures Valid()
      ensures var d := old(SessionOf(s.id)).data;
              var pet := PetInfo(d.petType.value, d.petName.value, text);
              var base := if s.id in old(users) then old(users)[s.id] else NewRecord(s);
              && users == old(users)[s.id := base.(petInfo := Some(pet))]
              && out == [Outgoing(s.id, PetSaved(pet)), Outgoing(s.id, SurveyQuestion(0))]
      ensures keys == if s.id in old(users) then old(keys) else old(keys) + [s.id]
      ensures saved == users
      ensures sessions == old(sessions)[s.id := SurveyStarted(Cleared, s.id)]
      ensures WellFormed(old(users)) ==> WellFormed(users)
    {
      var data := SessionOf(s.id).data;
      if s.id !in users {
        AddRecord(s);
      }
      var pet := PetInfo(data.petType.value, data.petName.value, text);
      users := users[s.id := users[s.id].(petInfo := Some(pet))];
      saved := users;
      out := [Outgoing(s.id, PetSaved(pet))];
      sessions := sessions[s.id := Cleared];
      var next := StartSurvey(s.id);
      out := out + next;
    }

    /** `process_answer`: appends the text to the answers. Before the last
        question it asks the next one; on the last it appends one dated survey
        to the end of the user's history, saves and clears the context. */
    method AnswerStep(s: Sender, text: string, date: string) returns (out: seq<Outgoing>)
      requires Valid() && SessionOf(s.id).phase == AwaitingAnswer
      modifies this
      ensures Valid()
      ensures var d := old(SessionOf(s.id)).data;
              var answers := d.answers.value + [text];
              if |answers| < |QUESTIONS| then
                && sessions == old(sessions)[s.id := Session(AwaitingAnswer,
                                                    d.(currentQuestion := Some(|answers|), answers := Some(answers)))]
                && users == old(users) && keys == old(keys) && saved == old(saved)
                && out == [Outgoing(s.id, SurveyQuestion(|answers|))]
              else
                var base := if s.id in old(users) then old(users)[s.id] else NewRecord(s);
                && |answers| == |QUESTIONS|
                && users == old(users)[s.id := base.(surveys := base.surveys + [Survey(date, answers)])]
                && keys == (if s.id in old(users) then old(keys) else old(keys) + [s.id])
                && saved == users
                && sessions == old(sessions)[s.id := Cleared]
                && out == [Outgoing(s.id, SurveyThanks)]
      ensures WellFormed(old(users)) ==> WellFormed(users)
    {
      var ctx := SessionOf(s.id);
      var currentQuestion := ctx.data.currentQuestion.value;
      var answers := ctx.data.answers.value + [text];
      currentQuestion := currentQuestion + 1;
      if currentQuestion < |QUESTIONS| {
        sessions := sessions[s.id := ctx.(data := ctx.data.(currentQuestion := Some(currentQuestion),
                                                            answers := Some(answers)))];
        out := [Outgoing(s.id, SurveyQuestion(currentQuestion))];
      } else {
        var survey := Survey(date, answers);
        if s.id !in users {
          AddRecord(s);
        }
        users := users[s.id := users[s.id].(surveys := users[s.id].surveys + [survey])];
        saved := users;
        out := [Outgoing(s.id, SurveyThanks)];
        sessions := sessions[s.id := Cleared];
      }
    }

    /** aiogram's routing of a text that is not a command: to the handler of the
        sender's FSM state; with no state set, no handler matches. */
    method HandleText(s: Sender, text: string, date: string) returns (out: seq<Outgoing>)
      requires Valid()
      modifies this
      ensures Valid()
      ensures StageOf(SessionOf(s.id)) == Next(old(StageOf(SessionOf(s.id))))
      ensures SurveyCount(users, s.id)
              == old(SurveyCount(users, s.id)) + (if old(StageOf(SessionOf(s.id))) == Answering(|QUESTIONS| - 1) then 1 else 0)
      ensures forall u :: u != s.id ==> SessionOf(u) == old(SessionOf(u))
      ensures forall u :: u != s.id && u in old(users) ==> u in users && users[u] == old(users)[u]
      ensures old(SessionOf(s.id)).phase == Idle ==>
                && users == old(users) && keys == old(keys) && sessions == old(sessions)
                && saved == old(saved) && out == []
      ensures WellFormed(old(users)) ==> WellFormed(users)
    {
      match SessionOf(s.id).phase
      case Idle =>
        out := [];
      case AwaitingPetType =>
        out := PetTypeStep(s, text);
      case AwaitingPetName =>
        out := PetNameStep(s, text);
      case AwaitingPetAge =>
        out := PetAgeStep(s, text);
      case AwaitingAnswer =>
        out := AnswerStep(s, text, date);
    }

    /** `send_daily_survey`: for each key of a snapshot of the store, in order,
        starts registration or the survey. A user in `failing` is one whose send
        raises: their context has already been reset, the error is caught and
        the loop goes on with the next user. */
    method DailySurvey(failing: set<UserId>) returns (out: seq<Outgoing>, failed: seq<UserId>)
      requires Valid()
      modifies this
      ensures Valid()
      ensures users == old(users) && keys == old(keys) && saved == old(saved)
      ensures forall u :: SessionOf(u) == if u in users then FlowStart(users, old(SessionOf(u)), u) else old(SessionOf(u))
      ensures out == FanOutSends(keys, users, failing)
      ensures failed == FanOutFailures(keys, failing)
      ensures forall u :: u in users && u !in failing ==> Outgoing(u, FirstPrompt(users, u)) in out
    {
      var ids := keys;
      out, failed := [], [];
      var i := 0;
      while i < |ids|
        invariant 0 <= i <= |ids|
        invariant Valid()
        invariant users == old(users) && keys == ids && saved == old(saved)
        invariant out == FanOutSends(ids[..i], users, failing)
        invariant failed == FanOutFailures(ids[..i], failing)
        invariant forall u :: u in ids[..i] ==> SessionOf(u) == FlowStart(users, old(SessionOf(u)), u)
        invariant forall u :: u !in ids[..i] ==> SessionOf(u) == old(SessionOf(u))
      {
        var u := ids[i];
        assert ids[..i + 1] == ids[..i] + [u];
        assert u !in ids[..i];
        var sent;
        if NeedsRegistration(users, u) {
          sent := StartRegistration(u);
        } else {
          sent := StartSurvey(u);
        }
        if u in failing {
          failed := failed + [u];
        } else {
          out := out + sent;
        }
        i := i + 1;
      }
      assert ids[..|ids|] == ids;
      FanOutIsolation(ids, users, failing);
    }
  }

  // Client scenarios: what a caller can conclude from the handlers' contracts.

  /** A first-time user sends /start and /survey and answers the three
      registration questions: the pet is on record and the survey has begun.
      The steps are the handlers aiogram routes those messages to. */
  method RegisterNewUser(s: Sender, kind: string, name: string, age: string)
    returns (bot: DiaryBot, replies: seq<Outgoing>)
    ensures fresh(bot) && bot.Valid()
    ensures bot.users == map[s.id := UserRecord(s.username, s.firstName, Some(PetInfo(kind, name, age)), [])]
    ensures bot.SessionOf(s.id).phase == AwaitingAnswer && bot.SessionOf(s.id).data.answers == Some([])
    ensures replies == [Outgoing(s.id, Welcome(s.firstName)), Outgoing(s.id, PetQuestion(1)),
                        Outgoing(s.id, PetQuestion(2)), Outgoing(s.id, PetQuestion(3)),
                        Outgoing(s.id, PetSaved(PetInfo(kind, name, age))), Outgoing(s.id, SurveyQuestion(0))]
  {
    bot := new DiaryBot(map[], []);
    replies := bot.Start(s);
    var o := bot.SurveyCommand(s);
    replies := replies + o;
    o := bot.PetTypeStep(s, kind);
    replies := replies + o;
    o := bot.PetNameStep(s, name);
    replies := replies + o;
    o := bot.PetAgeStep(s, age);
    replies := replies + o;
  }

  /** The whole first day of a new user: registration chains into the survey,
      and the three answers end it with exactly one survey, answers in order. */
  method RegistrationScenario(s: Sender, kind: string, name: string, age: string,
                              a1: string, a2: string, a3: string, date: string)
    returns (rec: UserRecord, replies: seq<Outgoing>)
    ensures rec == UserRecord(s.username, s.firstName, Some(PetInfo(kind, name, age)), [Survey(date, [a1, a2, a3])])
    ensures replies == [Outgoing(s.id, SurveyQuestion(1)), Outgoing(s.id, SurveyQuestion(2)),
                        Outgoing(s.id, SurveyThanks)]
  {
    var bot, registration := RegisterNewUser(s, kind, name, age);
    assert [] + [a1] == [a1];
    replies := bot.AnswerStep(s, a1, date);
    assert bot.SessionOf(s.id).data.answers == Some([a1]);
    assert [a1] + [a2] == [a1, a2];
    var o := bot.AnswerStep(s, a2, date);
    replies := replies + o;
    assert bot.SessionOf(s.id).data.answers == Some([a1, a2]);
    assert [a1, a2] + [a3] == [a1, a2, a3];
    o := bot.AnswerStep(s, a3, date);
    replies := replies + o;
    rec := bot.users[s.id];
  }

  /** /stop then /start: the user is back with a fresh record and no history. */
  method ResubscribeScenario(s: Sender, previous: UserRecord) returns (rec: UserRecord)
    ensures rec == UserRecord(s.username, s.firstName, None, [])
  {
    var bot := new DiaryBot(map[s.id := previous], [s.id]);
    var o := bot.Stop(s);
    o := bot.Start(s);
    rec := bot.users[s.id];
  }

  /** A user two answers into a survey when the daily fan-out fires loses
      them: the survey restarts at question 0. */
  method DailySurveyOverwritesScenario(s: Sender, pet: PetInfo, a1: string, a2: string)
    returns (before: Stage, after: Stage)
    ensures before == Answering(2) && after == Answering(0)
  {
    var bot := new DiaryBot(map[s.id := UserRecord(s.username, s.firstName, Some(pet), [])], [s.id]);
    var o := bot.SurveyCommand(s);
    o := bot.AnswerStep(s, a1, "");
    o := bot.AnswerStep(s, a2, "");
    before := StageOf(bot.SessionOf(s.id));
    var sent, failed := bot.DailySurvey({});
    after := StageOf(bot.SessionOf(s.id));
  }
}
