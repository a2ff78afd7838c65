/** The stop of one job on the card (pictures/comfy.py, `stop_job`), and what its polls must find to confirm it. */
module PictureStops {

  const STOP_POLLS: nat := 10

  /** A look for a job: the read of the queue fails, or holds it; or it does not, and the read of the record fails, or
      finds one, or none. */
  datatype Answer = QueueFails | Held | RecordFails | Recorded | Nowhere

  predicate Unanswered(answer: Answer) {
    answer.QueueFails? || answer.RecordFails?
  }

  /** What ComfyUI is asked. */
  datatype Request = Cancel | ReadQueue | ReadRecord | Forget

  /** The record is asked for only once the queue does not hold the job. */
  function Asks(answer: Answer): seq<Request> {
    if answer.QueueFails? || answer.Held? then [ReadQueue] else [ReadQueue, ReadRecord]
  }

  function AllAsk(answers: seq<Answer>): seq<Request> {
    if answers == [] then [] else AllAsk(answers[..|answers| - 1]) + Asks(answers[|answers| - 1])
  }

  /** Whether the answers confirm a stop: a record, or two in a row that find the job nowhere, not counting those that
      failed. */
  function Confirms(answers: seq<Answer>, missing: nat): bool {
    if answers == [] then false
    else
      match answers[0]
      case QueueFails => Confirms(answers[1..], missing)
      case RecordFails => Confirms(answers[1..], missing)
      case Held => Confirms(answers[1..], 0)
      case Recorded => true
      case Nowhere => missing >= 1 || Confirms(answers[1..], 1)
  }

  /** The cancel, whatever becomes of it, and then the polls, up to the one that confirms. */
  method StopJob(poll: nat -> Answer) returns (confirmed: bool, asked: seq<Request>, ghost polls: nat)
    ensures confirmed == Confirms(seq(STOP_POLLS, i requires 0 <= i < STOP_POLLS => poll(i)), 0)
    ensures confirmed ==> 0 < polls <= STOP_POLLS && (poll(polls - 1).Recorded? || poll(polls - 1).Nowhere?)
    ensures !confirmed ==> polls == STOP_POLLS
    ensures asked == [Cancel] + AllAsk(seq(polls, i requires 0 <= i < polls => poll(i)))
  {
    hide Asks;
    var missing, i := 0, 0;
    ghost var answers := seq(STOP_POLLS, i requires 0 <= i < STOP_POLLS => poll(i));
    polls, asked := 0, [Cancel];
    while i < STOP_POLLS
      invariant 0 <= i <= STOP_POLLS && polls == i
      invariant Confirms(answers[i..], missing) == Confirms(answers, 0) && missing <= 1
      invariant asked == [Cancel] + AllAsk(seq(i, k requires 0 <= k < i => poll(k)))
    {
      assert answers[i..][1..] == answers[i + 1..] && answers[i..][0] == poll(i);
      OnePollMore(poll, i);
      polls, asked := i + 1, asked + Asks(poll(i));
      match poll(i) {
        case QueueFails =>
        case RecordFails =>
        case Held => missing := 0;
        case Recorded => return true, asked, polls;
        case Nowhere =>
          missing := missing + 1;
          if missing > 1 {
            return true, asked, polls;
          }
      }
      i := i + 1;
    }
    confirmed := false;
  }

  lemma OnePollMore(poll: nat -> Answer, n: nat)
    ensures AllAsk(seq(n + 1, k requires 0 <= k < n + 1 => poll(k)))
         == AllAsk(seq(n, k requires 0 <= k < n => poll(k))) + Asks(poll(n))
  {
    var more := seq(n + 1, k requires 0 <= k < n + 1 => poll(k));
    assert more[..n] == seq(n, k requires 0 <= k < n => poll(k));
  }

  /** The answers that came. */
  function Came(answers: seq<Answer>): seq<Answer> {
    if answers == [] then []
    else if Unanswered(answers[0]) then Came(answers[1..])
    else [answers[0]] + Came(answers[1..])
  }

  ghost predicate TwiceNowhere(came: seq<Answer>) {
    exists i :: 0 <= i < |came| - 1 && came[i].Nowhere? && came[i + 1].Nowhere?
  }

  lemma {:induction false} FailedReadsDoNotCount(answers: seq<Answer>, missing: nat)
    ensures Confirms(answers, missing) <==> Confirms(Came(answers), missing)
  {
    if answers != [] {
      var rest := answers[1..];
      assert !Unanswered(answers[0]) ==> Came(answers)[1..] == Came(rest);
      FailedReadsDoNotCount(rest, missing);
      FailedReadsDoNotCount(rest, 0);
      FailedReadsDoNotCount(rest, 1);
    }
  }

  lemma {:induction false} ConfirmsByPairs(came: seq<Answer>, missing: nat)
    requires forall a :: a in came ==> !Unanswered(a)
    ensures Confirms(came, missing) <==>
              Recorded in came || TwiceNowhere(came) || (missing >= 1 && came != [] && came[0].Nowhere?)
  {
    if came != [] {
      var rest := came[1..];
      assert came == [came[0]] + rest;
      assert came[0] in came && !Unanswered(came[0]);
      ConfirmsByPairs(rest, 0);
      ConfirmsByPairs(rest, 1);
      PairsOf(came[0], rest);
    }
  }

  lemma PairsOf(a: Answer, rest: seq<Answer>)
    ensures TwiceNowhere([a] + rest) <==> (a.Nowhere? && rest != [] && rest[0].Nowhere?) || TwiceNowhere(rest)
  {
    var came := [a] + rest;
    if a.Nowhere? && rest != [] && rest[0].Nowhere? {
      assert came[0].Nowhere? && came[0 + 1].Nowhere?;
    }
    if TwiceNowhere(rest) {
      var i :| 0 <= i < |rest| - 1 && rest[i].Nowhere? && rest[i + 1].Nowhere?;
      assert came[i + 1].Nowhere? && came[i + 1 + 1].Nowhere?;
    }
    if TwiceNowhere(came) {
      var i :| 0 <= i < |came| - 1 && came[i].Nowhere? && came[i + 1].Nowhere?;
      if i > 0 {
        assert rest[i - 1].Nowhere? && rest[i - 1 + 1].Nowhere?;
      }
    }
  }

  lemma {:induction false} CameOnly(answers: seq<Answer>)
    ensures forall a :: a in Came(answers) ==> !Unanswered(a)
    ensures forall a :: a in Came(answers) ==> a in answers
  {
    if answers != [] {
      CameOnly(answers[1..]);
    }
  }

  /** A stop is confirmed exactly by the job's record, or by two answers in a row, of those that came, that find it
      nowhere. */
  lemma ConfirmsExactly(answers: seq<Answer>)
    ensures Confirms(answers, 0) <==> Recorded in Came(answers) || TwiceNowhere(Came(answers))
  {
    FailedReadsDoNotCount(answers, 0);
    CameOnly(answers);
    ConfirmsByPairs(Came(answers), 0);
  }

  /** A card that answers nothing, or that the job is still there, confirms nothing. */
  lemma SilenceConfirmsNothing(answers: seq<Answer>)
    requires forall a :: a in answers ==> Unanswered(a) || a.Held?
    ensures !Confirms(answers, 0)
  {
    ConfirmsExactly(answers);
    CameOnly(answers);
  }
}
