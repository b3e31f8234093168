/** The two fixed poll payloads and the command-line choice between them. */
module Polls {
  import opened Wrappers

  /** What is handed to the client's poll constructor: a question and the
      ordered list of options voters choose from. */
  datatype PollData = PollData(question: string, options: seq<string>)

  /** The poll kinds the command line accepts. */
  datatype PollType = Dinner | Breakfast

  /** Every poll this bot sends offers exactly two distinct answers. */
  predicate IsTwoOptionPoll(p: PollData) {
    |p.options| == 2 && p.options[0] != p.options[1] && |p.question| > 0
  }

  /** The payload `sendDinnerPoll` builds. */
  function DinnerPoll(): (p: PollData)
    ensures IsTwoOptionPoll(p)
    ensures p.options == ["Yes", "No"]
  {
    PollData("Dinner today?", ["Yes", "No"])
  }

  /** The payload `sendBreakfastPoll` builds. */
  function BreakfastPoll(): (p: PollData)
    ensures IsTwoOptionPoll(p)
    ensures p.options == ["Yes", "No"]
  {
    PollData("Breakfast tomorrow?", ["Yes", "No"])
  }

  /** The payload `main` sends for each accepted poll kind. */
  function PollFor(t: PollType): (p: PollData)
    ensures IsTwoOptionPoll(p)
    ensures p.options == ["Yes", "No"]
    ensures (t == Dinner) <==> p.question == "Dinner today?"
    ensures (t == Breakfast) <==> p.question == "Breakfast tomorrow?"
  {
    match t
    case Dinner => DinnerPoll()
    case Breakfast => BreakfastPoll()
  }

  /** The command-line spelling of each poll kind. */
  function PollTypeName(t: PollType): string {
    match t
    case Dinner => "dinner"
    case Breakfast => "breakfast"
  }

  /** The argument check of `main`: a missing argument (`None`) and any string
      other than the two exact, lower-case names are refused. */
  function ParsePollType(arg: Option<string>): (r: Option<PollType>)
    ensures r.Some? ==> arg == Some(PollTypeName(r.value))
    ensures forall t :: arg == Some(PollTypeName(t)) ==> r == Some(t)
  {
    match arg
    case None => None
    case Some(s) =>
      if s == "dinner" then Some(Dinner)
      else if s == "breakfast" then Some(Breakfast)
      else None
  }

  /** The argument is accepted exactly when it is one of the two names. */
  lemma AcceptedIff(arg: Option<string>)
    ensures ParsePollType(arg).Some? <==> arg == Some("dinner") || arg == Some("breakfast")
  {
  }

  /** Unknown kinds, other capitalisations and the empty string are refused. */
  lemma RejectedExamples()
    ensures ParsePollType(None) == None
    ensures ParsePollType(Some("lunch")) == None
    ensures ParsePollType(Some("Dinner")) == None
    ensures ParsePollType(Some("")) == None
  {
  }
}
