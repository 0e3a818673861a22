# A Dafny model of dnevnik_bot's conversation core

dnevnik_bot is a Telegram bot that asks every registered user three questions
about their pet each evening at 19:00 Moscow time. It keeps the answers as dated
surveys and shows them back on request. This project models the part of
`main.py` with real state:

- the user store `user_data`: a map from user id to a record with the
  username, first name, optional pet and list of surveys. Its keys keep their
  insertion order, and the store is saved after every change;
- the per-user FSM context that aiogram keeps: a state (no state, waiting for
  the pet's kind, name or age, or waiting for an answer) and a data dictionary
  (`pet_type`, `pet_name`, `current_question`, `answers`, `user_id`);
- the handlers: `/start`, `/stop`, `/survey`, `/editpet`, `/pet` and
  `/history`, the three registration steps and the answer step. Also the
  routing of plain text by FSM state and the daily fan-out
  `send_daily_survey`;
- the scheduler's rule for the next firing time.

Modules and files:

- `wrappers.dfy`, module `Wrappers`: Option and Result.
- `store.dfy`, module `Store`: records, the question list and key order under
  deletion and insertion.
- `history.dfy`, module `History`: the `/history` reply. A loop builds it line
  by line; a parser reads it back, and the reply says exactly which surveys are
  shown.
- `conversation.dfy`, module `Conversation`: the FSM context as values, the
  invariant every context keeps, and the transition table as a function on
  stages. Also the fan-out's specification and its failure-isolation lemma.
- `bot.dfy`, module `Bot`: the class `DiaryBot`. Its fields are the store, the
  key order, the FSM storage and a ghost snapshot of the last save. There is
  one method per handler, plus three client scenarios that show what a caller
  can conclude.
- `schedule.dfy`, module `Schedule`: the next-target calculation as written,
  and the intended version that rolls over at month end (see Findings).

`DiaryBot.Valid()` is kept by every handler. It says two things. The key order
lists each key of the store once. Each user's FSM data holds what that user's
state handler reads. In particular, while answering, the number of answers
equals `current_question`, and that is below `|QUESTIONS|`.

Clock reads, sends and saves are handled as follows:

- The current time is an input: a `Moment` for the scheduler, an opaque date
  string for a completed survey.
- Messages sent with `message.answer` and `bot.send_message` are the `Outgoing`
  values each method returns, in order.
- `save_user_data` is the assignment `saved := users`.
- The daily fan-out takes the set of users whose send raises.

The three question texts appear in English translation.

## Model

| member | source | states |
|---|---|---|
| `Bot.DiaryBot.constructor` | main.py:65-66 | The store is the loaded one, its key order is the file's, and no user has an FSM context yet. |
| `Bot.DiaryBot.Start` | main.py:69-82 | An unknown sender gets a record with no pet and no surveys, added last in key order and saved. A known sender's record, the order and the saved copy are unchanged. FSM contexts are untouched. The reply is the greeting. |
| `Bot.DiaryBot.Stop` | main.py:148-157 | The sender's record is removed and the other keys keep their order; the store is saved if there was a record. An unknown sender leaves the store unchanged and gets the "not subscribed" reply. FSM contexts are untouched. |
| `Bot.DiaryBot.StartRegistration` | main.py:159-166 | Whatever flow was in progress, the user's state becomes "waiting for pet kind" and the FSM data is kept. The store is unchanged, and question 1 of 3 is sent. |
| `Bot.DiaryBot.StartSurvey` | main.py:215-228 | Whatever flow was in progress, the user is at question 0 with no answers, in the answering state. Earlier data keys stay. The store is unchanged, and QUESTIONS[0] is sent. |
| `Bot.DiaryBot.SurveyCommand` | main.py:95-103 | An unknown sender, or one whose pet is None, starts registration; any other sender starts the survey. Only that sender's context changes. |
| `Bot.DiaryBot.EditPet` | main.py:123-125 | Starts registration whether or not a pet is on record. |
| `Bot.DiaryBot.PetCommand` | main.py:106-120 | Read-only. The reply is "no pet" exactly when the sender is unknown or has no pet; otherwise it is the card of the pet on record. |
| `Bot.DiaryBot.HistoryCommand` | main.py:128-145 | Read-only. The reply is "no history" exactly when the sender is unknown or has no surveys. Otherwise the reply lines are exactly the rendered history, and they parse back to the last min(10, n) surveys, newest first. |
| `Bot.DiaryBot.PetTypeStep` | main.py:168-173 | Stores the text as `pet_type`, moves to "waiting for name" and asks question 2. The store is unchanged. |
| `Bot.DiaryBot.PetNameStep` | main.py:175-180 | Stores the text as `pet_name`, moves to "waiting for age" and asks question 3. The store is unchanged. |
| `Bot.DiaryBot.PetAgeStep` | main.py:182-213 | The record gets pet = (pet_type, pet_name, text). A missing record is first created with no surveys; an existing one keeps its names and surveys. The store is saved and the FSM data cleared. The user is then at question 0 with no answers, and the replies are the confirmation and QUESTIONS[0]. |
| `Bot.DiaryBot.AnswerStep` | main.py:230-276 | The text is appended to the answers. Before the last question, the index goes up by one, the store is unchanged and the next question is sent. On the last question, exactly one survey, with the date and all the number of questions answers in order, is appended at the end of the user's surveys. Earlier surveys are unchanged; a missing record is created first. The store is saved, the context cleared, and store completeness is kept. |
| `Bot.DiaryBot.HandleText` | main.py:168-276 | Routing by FSM state. The sender's stage moves by the transition table, and the survey count grows by one exactly when the last answer arrives. Other users' contexts and records are unchanged. With no state set, nothing changes and nothing is sent. |
| `Bot.DiaryBot.DailySurvey` | main.py:278-295 | Goes over the key snapshot in order. Every known user's context is reset to registration (no pet) or to a fresh survey, including users whose send fails. The store is unchanged. The sends and failures are exactly those given by `FanOutSends` and `FanOutFailures`, and every user whose own send works gets their prompt. |
| `Bot.RegisterNewUser` | main.py:68-228 | A new user runs /start, /survey and three registration answers. They end with the pet on record, no surveys, and an empty survey in progress; the six replies come in order. |
| `Bot.RegistrationScenario` | main.py:94-276 | After that registration, three answers leave the user with the pet and exactly one survey holding the three answers in order. The replies are questions 2 and 3, then the thanks. |
| `Bot.ResubscribeScenario` | main.py:68-157 | /stop then /start leaves a fresh record with no pet and no history, whatever the record held before. |
| `Bot.DailySurveyOverwritesScenario` | main.py:215-295 | A user two answers into a survey when the fan-out fires is put back at question 0 ("last writer wins"). |
| `Conversation.FlowStart` | main.py:100-103 | The routed flow starts in "waiting for pet kind" exactly when the user needs registration, else at question 0 with no answers. Either way the context invariant still holds. |
| `Conversation.SurveyRunsToCompletion` | main.py:241-253 | From i answers, after n more messages the user is answering question i+n if that is below the number of questions; otherwise the flow has ended. |
| `Conversation.RegistrationThenSurvey` | main.py:168-213 | Registration chains into a fresh survey after three messages. The whole flow ends after exactly 3 + the number of questions messages and not before. |
| `Conversation.FanOutIsolation` | main.py:282-295 | Every snapshot user whose send works gets their prompt, whatever other sends fail. Nothing is sent to anyone else. The failures are exactly the failing snapshot users. |
| `History.RecentFirstAt` | main.py:139 | The entries shown number min(10, n); entry k is survey n-1-k. |
| `History.RenderHistory` | main.py:137-143 | The nested loop builds the reply one line at a time. The result parses back to exactly the shown entries: each one's date and all its answers, in order. |
| `History.ParseBodyOfBody` | main.py:139-143 | Parsing the rendered entries gives back the entries. |
| `Schedule.ReplaceDay` | main.py:305 | `replace(day=…)` succeeds exactly when that day exists in the month; otherwise it is the out-of-range error. |
| `Schedule.NextTarget` | main.py:300-305 | As written. Before 19:00 the target is today at 19:00. Otherwise it is day+1 of the same month, valid and strictly after now. It fails exactly at or after 19:00 on the last day of a month. |
| `Schedule.MonthEndRaises` | main.py:305 | At or after 19:00 on January 31 and December 31, the as-written rule raises. |
| `Schedule.NextDay` | main.py:303-305 | The next calendar day is a valid date after the given one, and no valid date lies between them. |
| `Schedule.NextTargetRolled` | main.py:300-305 | Intended rule: the target is at 19:00, valid, strictly after now, and the earliest such moment. |
| `Schedule.RolledAgreesWithAsWritten` | main.py:300-305 | Wherever the as-written rule returns a time, it equals the intended one. Where it fails, the intended target is the first day of the next month. |

## Left out

- Loading and saving the JSON file (main.py:53-63) is file I/O. Loading becomes the constructor's arguments; saving becomes the ghost snapshot `saved`. A failed write is not modelled.
- The aiogram transport. Sends are returned values. A send inside any handler is taken to succeed; only the daily fan-out models failing sends. In the source a failed send in a handler ends that handler after the state changes made before it (for example, a failed confirmation at main.py:203 would leave the user waiting for the pet's age with the pet already saved).
- Command routing. aiogram registers the command handlers before the state handlers, so a command is handled in any FSM state. `HandleText` therefore takes every text that is not one of the six registered commands; an unregistered command such as /help sent during a flow goes to the state handler like any other text.
- FSM keys. aiogram keys the FSM context by (chat, user); the model keys it by user, which is the same thing in the private chats the bot uses.
- Non-text messages. A message with no text (a photo, a sticker) gives `message.text` = None; the model's texts are always strings.
- `asyncio`. The one-second pause between users, `create_task`, polling and the sleep until the target (main.py:293, 307-320) are not modelled. There is no interleaving between the scheduler and the handlers, and the handlers for one user are taken to run one at a time. aiogram's polling may handle updates in separate tasks; a second text handled while the last answer's thanks is being sent (between main.py:270 and main.py:276) would still find the answering state at the last question and append a second survey, whose answers the first survey shares through the same list. The same window exists in `process_pet_age` between main.py:203 and main.py:212. This is not modelled.
- Time. `datetime.now`, the pytz zone and the `strftime` date format are inputs: a `Moment` in local wall-clock time to the minute, and an opaque date string. Seconds below the minute do not change the target, which always has second 0.
- The log line and `sleep_seconds / 3600` are floating point and logging.
- Reply texts. The Russian wording, emoji and formatting of replies, `/pet` output included, are represented by `Reply` constructors and `History.Line` values. The parse-back of `/history` holds for these `Line` values; in the string the bot sends, an answer that contains a newline shows as several lines.
- Configuration. `load_dotenv`, the token print and the logging setup.
- `Bot.DiaryBot.HandleText`: its contract does not give the whole new state. It states the stage transition, the survey count, what stays the same for other users, and the no-state case. The four step methods it dispatches to each state their whole new state.
- `Schedule.NextTargetRolled`: years are unbounded. Python's datetime would raise OverflowError when rolling past 9999-12-31.
- Behaviour of the code worth noting:
  - `start_survey` does not check that a pet is on record;
  - a text that arrives with no FSM state set is dropped silently;
  - `/stop` does not clear the user's FSM context, so a user who stops in the middle of a survey can still finish it, and that creates a new record without a pet (main.py:262-267).

## Findings

| source | as written | input that shows it | evidently intended | confidence | as-written member | corrected member |
|---|---|---|---|---|---|---|
| main.py:305 | When 19:00 has passed, the target is today's date with the day of the month increased by one, through `datetime.replace`. | now = 2026-01-31 20:00: day 32 does not exist, `replace` raises ValueError and the scheduler task ends, so no daily survey fires again until restart | the same time on the next calendar day, crossing month and year ends | not executed; high | `Schedule.NextTarget`, `Schedule.MonthEndRaises` | `Schedule.NextTargetRolled` |
