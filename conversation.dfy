/** The per-user conversation state of main.py: the aiogram FSM state
    (RegistrationStates, SurveyStates) and the FSM data dictionary, the
    replies the handlers send, and the daily fan-out's specification. */
module Conversation {
  import opened Wrappers
  import opened Store
  import History

  /** The FSM state; Idle is aiogram's `None` state. */
  datatype Phase = Idle | AwaitingPetType | AwaitingPetName | AwaitingPetAge | AwaitingAnswer

  /** The FSM data dictionary; a key that was never set is None. */
  datatype FsmData = FsmData(
    petType: Option<string>,
    petName: Option<string>,
    currentQuestion: Option<int>,
    answers: Option<seq<string>>,
    surveyUser: Option<UserId>)

  const NoData: FsmData := FsmData(None, None, None, None, None)

  datatype Session = Session(phase: Phase, data: FsmData)

  /** A user's context before any flow and after `state.clear()`. */
  const Cleared: Session := Session(Idle, NoData)

  /** What each phase's handler reads from the FSM data is there. While a survey
      is being answered, the number of answers equals the question index, and
      that index names a question. */
  predicate SessionOk(s: Session) {
    && (s.phase == AwaitingPetName ==> s.data.petType.Some?)
    && (s.phase == AwaitingPetAge ==> s.data.petType.Some? && s.data.petName.Some?)
    && (s.phase == AwaitingAnswer ==>
          && s.data.answers.Some?
          && s.data.currentQuestion == Some(|s.data.answers.value|)
          && |s.data.answers.value| < |QUESTIONS|)
  }

  /** The replies the handlers send; their Russian wording is left out. */
  datatype Reply =
    | Welcome(firstName: string)           // greeting and command list of /start
    | PetQuestion(step: nat)               // registration question `step` of 3
    | PetSaved(pet: PetInfo)               // registration confirmation
    | SurveyQuestion(index: nat)           // survey question QUESTIONS[index]
    | SurveyThanks                         // survey completed
    | PetCard(pet: PetInfo)                // /pet
    | NoPet                                // /pet without a pet
    | HistoryText(lines: seq<History.Line>) // /history
    | NoHistory                            // /history without surveys
    | Unsubscribed                         // /stop
    | NotSubscribed                        // /stop of an unknown user

  datatype Outgoing = Outgoing(to: UserId, reply: Reply)

  /** `start_registration`'s effect on a user's context: the state is set and
      the data is kept. */
  function RegistrationStarted(s: Session): Session {
    Session(AwaitingPetType, s.data)
  }

  /** `start_survey`'s effect: the survey's keys are merged into the data and the
      state is set. Pet keys left in the data stay there. */
  function SurveyStarted(s: Session, id: UserId): Session {
    Session(AwaitingAnswer,
            s.data.(currentQuestion := Some(0), answers := Some([]), surveyUser := Some(id)))
  }

  /** Routing of /survey and of the daily fan-out: registration for an unknown
      user or one without a pet, the survey otherwise. */
  predicate NeedsRegistration(users: map<UserId, UserRecord>, id: UserId) {
    id !in users || users[id].petInfo.None?
  }

  function FlowStart(users: map<UserId, UserRecord>, s: Session, id: UserId): (r: Session)
    requires SessionOk(s)
    ensures SessionOk(r)
    ensures r.phase == (if NeedsRegistration(users, id) then AwaitingPetType else AwaitingAnswer)
    ensures r.phase == AwaitingAnswer ==> r.data.currentQuestion == Some(0) && r.data.answers == Some([])
  {
    if NeedsRegistration(users, id) then RegistrationStarted(s) else SurveyStarted(s, id)
  }

  function FirstPrompt(users: map<UserId, UserRecord>, id: UserId): Reply {
    if NeedsRegistration(users, id) then PetQuestion(1) else SurveyQuestion(0)
  }

  // The conversation as a state machine: how far a user is in their flow, and
  // how one inbound text moves it on.

  datatype Stage = Inactive | Registering(step: nat) | Answering(answered: nat)

  function StageOf(s: Session): Stage {
    match s.phase
    case Idle => Inactive
    case AwaitingPetType => Registering(1)
    case AwaitingPetName => Registering(2)
    case AwaitingPetAge => Registering(3)
    case AwaitingAnswer => Answering(if s.data.answers.Some? then |s.data.answers.value| else 0)
  }

  /** The transition one text message causes: registration walks its three
      questions and chains into a fresh survey; the last answer ends the flow;
      a text with no flow active is not handled. */
  function Next(st: Stage): Stage {
    match st
    case Inactive => Inactive
    case Registering(k) => if k < 3 then Registering(k + 1) else Answering(0)
    case Answering(i) => if i + 1 < |QUESTIONS| then Answering(i + 1) else Inactive
  }

  function Run(st: Stage, n: nat): Stage
    decreases n
  {
    if n == 0 then st else Run(Next(st), n - 1)
  }

  /** A survey with `i` answers ends after exactly the remaining questions
      have been answered, and is active until then. */
  lemma {:induction false} SurveyRunsToCompletion(i: nat, n: nat)
    requires i < |QUESTIONS|
    ensures Run(Answering(i), n) == if i + n < |QUESTIONS| then Answering(i + n) else Inactive
    decreases n
  {
    if n > 0 {
      if i + 1 < |QUESTIONS| {
        SurveyRunsToCompletion(i + 1, n - 1);
      } else {
        InactiveStays(n - 1);
      }
    }
  }

  lemma {:induction false} InactiveStays(n: nat)
    ensures Run(Inactive, n) == Inactive
  {
    if n > 0 {
      InactiveStays(n - 1);
    }
  }

  /** A registration takes 3 messages and then the full survey: the flow ends
      after exactly 3 + |QUESTIONS| messages. */
  lemma RegistrationThenSurvey(n: nat)
    ensures Run(Registering(1), 3 + n) == Run(Answering(0), n)
    ensures Run(Registering(1), n) == Inactive <==> n >= 3 + |QUESTIONS|
  {
    RunAdd(Registering(1), 3, n);
    if n >= 3 {
      RunAdd(Registering(1), 3, n - 3);
      SurveyRunsToCompletion(0, n - 3);
    } else {
      assert Run(Registering(1), n) != Inactive;
    }
  }

  lemma {:induction false} RunAdd(st: Stage, a: nat, b: nat)
    ensures Run(st, a + b) == Run(Run(st, a), b)
    decreases a
  {
    if a > 0 {
      RunAdd(Next(st), a - 1, b);
    }
  }

  // The daily fan-out over a snapshot of the keys.

  /** The prompts that reach the users of `ids`, in order; a user in `failing`
      is one whose send raises, which is caught and logged. */
  function FanOutSends(ids: seq<UserId>, users: map<UserId, UserRecord>, failing: set<UserId>): seq<Outgoing>
  {
    if ids == [] then []
    else
      var last := ids[|ids| - 1];
      FanOutSends(ids[..|ids| - 1], users, failing)
        + (if last in failing then [] else [Outgoing(last, FirstPrompt(users, last))])
  }

  /** The users of `ids` whose send raised, in order. */
  function FanOutFailures(ids: seq<UserId>, failing: set<UserId>): seq<UserId> {
    if ids == [] then []
    else
      var last := ids[|ids| - 1];
      FanOutFailures(ids[..|ids| - 1], failing) + (if last in failing then [last] else [])
  }

  /** Failure isolation: every user of the snapshot whose own send works gets
      their prompt, whoever else fails; nothing goes to anyone else. */
  lemma {:induction false} FanOutIsolation(ids: seq<UserId>, users: map<UserId, UserRecord>, failing: set<UserId>)
    ensures forall u :: u in ids && u !in failing ==> Outgoing(u, FirstPrompt(users, u)) in FanOutSends(ids, users, failing)
    ensures forall o :: o in FanOutSends(ids, users, failing) ==>
              o.to in ids && o.to !in failing && o.reply == FirstPrompt(users, o.to)
    ensures forall u :: u in FanOutFailures(ids, failing) <==> u in ids && u in failing
  {
    if ids != [] {
      var init := ids[..|ids| - 1];
      FanOutIsolation(init, users, failing);
      assert ids == init + [ids[|ids| - 1]];
    }
  }
}
