/** The reply of `/history` (main.py:127-145): the ten most recent surveys,
    most recent first, each as a date line, its numbered answers and a blank
    line, under one heading. */
module History {
  import opened Wrappers
  import opened Store

  /** How many surveys `/history` shows: the slice `surveys[-10:]`. */
  const HISTORY_LIMIT: nat := 10

  function Min(a: nat, b: nat): nat {
    if a <= b then a else b
  }

  function Reverse<T>(s: seq<T>): seq<T> {
    if s == [] then [] else Reverse(s[1..]) + [s[0]]
  }

  /** `reversed(surveys[-10:])`. */
  function RecentFirst(surveys: seq<Survey>): seq<Survey> {
    Reverse(surveys[|surveys| - Min(HISTORY_LIMIT, |surveys|)..])
  }

  lemma {:induction false} ReverseAt<T>(s: seq<T>)
    ensures |Reverse(s)| == |s|
    ensures forall k :: 0 <= k < |s| ==> Reverse(s)[k] == s[|s| - 1 - k]
  {
    if s != [] {
      ReverseAt(s[1..]);
    }
  }

  /** The entries shown are the last min(10, n) surveys, the newest first. */
  lemma RecentFirstAt(surveys: seq<Survey>)
    ensures |RecentFirst(surveys)| == Min(HISTORY_LIMIT, |surveys|)
    ensures forall k :: 0 <= k < |RecentFirst(surveys)| ==>
              RecentFirst(surveys)[k] == surveys[|surveys| - 1 - k]
  {
    ReverseAt(surveys[|surveys| - Min(HISTORY_LIMIT, |surveys|)..]);
  }

  /** One line of the reply text; the Russian wording and emoji are left out. */
  datatype Line =
    | Heading                              // "History of your answers"
    | DateLine(date: string)               // the survey's date
    | AnswerLine(number: int, text: string) // "j. answer", numbered from 1
    | BlankLine

  function AnswerLines(answers: seq<string>): seq<Line> {
    seq(|answers|, k requires 0 <= k < |answers| => AnswerLine(k + 1, answers[k]))
  }

  function Block(s: Survey): seq<Line> {
    [DateLine(s.date)] + AnswerLines(s.answers) + [BlankLine]
  }

  function Body(entries: seq<Survey>): seq<Line> {
    if entries == [] then [] else Block(entries[0]) + Body(entries[1..])
  }

  /** The whole reply for a user whose surveys are `surveys`. */
  function Render(surveys: seq<Survey>): seq<Line> {
    [Heading] + Body(RecentFirst(surveys))
  }

  lemma {:induction false} BodyAppend(entries: seq<Survey>, s: Survey)
    ensures Body(entries + [s]) == Body(entries) + Block(s)
  {
    if entries == [] {
      assert entries + [s] == [s];
    } else {
      assert (entries + [s])[1..] == entries[1..] + [s];
      BodyAppend(entries[1..], s);
    }
  }

  /** Builds the reply as the source's two nested loops do, one `+=` at a time. */
  method RenderHistory(surveys: seq<Survey>) returns (text: seq<Line>)
    ensures text == Render(surveys)
    ensures ParseHistory(text) == Some(RecentFirst(surveys))
  {
    var entries := RecentFirst(surveys);
    text := [Heading];
    for i := 0 to |entries|
      invariant text == [Heading] + Body(entries[..i])
    {
      var survey := entries[i];
      text := text + [DateLine(survey.date)];
      for j := 0 to |survey.answers|
        invariant text == [Heading] + Body(entries[..i]) + [DateLine(survey.date)]
                          + AnswerLines(survey.answers[..j])
      {
        assert AnswerLines(survey.answers[..j + 1])
            == AnswerLines(survey.answers[..j]) + [AnswerLine(j + 1, survey.answers[j])];
        text := text + [AnswerLine(j + 1, survey.answers[j])];
      }
      assert survey.answers[..|survey.answers|] == survey.answers;
      assert entries[..i + 1] == entries[..i] + [survey];
      BodyAppend(entries[..i], survey);
      text := text + [BlankLine];
    }
    assert entries[..|entries|] == entries;
    ParseRender(surveys);
  }

  // Reading the reply back: the text shows every entry's date and all of its
  // answers in order, so no entry can be lost or merged with another.

  function LeadingAnswers(lines: seq<Line>): (n: nat)
    ensures n <= |lines|
    ensures forall k :: 0 <= k < n ==> lines[k].AnswerLine?
    ensures n < |lines| ==> !lines[n].AnswerLine?
  {
    if lines != [] && lines[0].AnswerLine? then 1 + LeadingAnswers(lines[1..]) else 0
  }

  function Texts(lines: seq<Line>): seq<string>
    requires forall k :: 0 <= k < |lines| ==> lines[k].AnswerLine?
  {
    seq(|lines|, k requires 0 <= k < |lines| => lines[k].text)
  }

  function ParseBody(lines: seq<Line>): Option<seq<Survey>>
    decreases |lines|
  {
    if lines == [] then Some([])
    else if !lines[0].DateLine? then None
    else
      var n := LeadingAnswers(lines[1..]);
      if 1 + n < |lines| && lines[1 + n] == BlankLine then
        match ParseBody(lines[2 + n..])
        case None => None
        case Some(rest) => Some([Survey(lines[0].date, Texts(lines[1..1 + n]))] + rest)
      else None
  }

  function ParseHistory(lines: seq<Line>): Option<seq<Survey>> {
    if lines != [] && lines[0] == Heading then ParseBody(lines[1..]) else None
  }

  lemma {:induction false} LeadingAnswersOf(ls: seq<Line>, rest: seq<Line>)
    requires forall k :: 0 <= k < |ls| ==> ls[k].AnswerLine?
    requires rest != [] && !rest[0].AnswerLine?
    ensures LeadingAnswers(ls + rest) == |ls|
  {
    if ls != [] {
      assert (ls + rest)[1..] == ls[1..] + rest;
      LeadingAnswersOf(ls[1..], rest);
    }
  }

  /** Round trip: parsing the rendered entries gives the entries back. */
  lemma {:induction false} ParseBodyOfBody(entries: seq<Survey>)
    ensures ParseBody(Body(entries)) == Some(entries)
  {
    if entries != [] {
      var s := entries[0];
      var ls := AnswerLines(s.answers);
      var rest := Body(entries[1..]);
      var lines := Body(entries);
      assert lines == [DateLine(s.date)] + (ls + ([BlankLine] + rest));
      assert lines[1..] == ls + ([BlankLine] + rest);
      LeadingAnswersOf(ls, [BlankLine] + rest);
      assert lines[1 + |ls|] == BlankLine;
      assert lines[1..1 + |ls|] == ls;
      assert Texts(ls) == s.answers;
      assert lines[2 + |ls|..] == rest;
      ParseBodyOfBody(entries[1..]);
      assert [s] + entries[1..] == entries;
    }
  }

  lemma ParseRender(surveys: seq<Survey>)
    ensures ParseHistory(Render(surveys)) == Some(RecentFirst(surveys))
  {
    ParseBodyOfBody(RecentFirst(surveys));
    assert Render(surveys)[1..] == Body(RecentFirst(surveys));
  }
}
