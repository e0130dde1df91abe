/** What the ranks agree to exchange: rounds of at most one transfer per ordered pair of ranks, as
    `all_to_all_comm` starts them for a communicator that does not group by batch. */
module Rounds {
  import opened Wire

  /** `data[a][b]` is what rank `a` sends to rank `b`; both cut it into `per` elements a batch. */
  datatype Round = Round(per: nat, data: seq<seq<Option<seq<Elem>>>>)

  datatype Program = Program(n: nat, buffers: nat, rounds: seq<Round>)

  /** A buffer holds at least one element, and there are two buffers per rank, as `setup` asks for. */
  ghost predicate Valid(p: Program) {
    && p.buffers >= 2 * p.n
    && forall r :: 0 <= r < |p.rounds| ==>
         && p.rounds[r].per > 0
         && |p.rounds[r].data| == p.n
         && forall a :: 0 <= a < p.n ==> |p.rounds[r].data[a]| == p.n
  }

  ghost predicate Pair(p: Program, a: nat, b: nat) {
    Valid(p) && a < p.n && b < p.n
  }

  /** The messages from `a` to `b` in round `r`. */
  ghost function WireOf(p: Program, a: nat, b: nat, r: nat): seq<Message>
    requires Pair(p, a, b) && r < |p.rounds|
  {
    match p.rounds[r].data[a][b]
    case None => []
    case Some(d) => Transfer(d, p.rounds[r].per)
  }

  /** The messages from `a` to `b` in the rounds before `r`. */
  ghost function Stream(p: Program, a: nat, b: nat, r: nat): seq<Message>
    requires Pair(p, a, b) && r <= |p.rounds|
  {
    if r == 0 then [] else Stream(p, a, b, r - 1) + WireOf(p, a, b, r - 1)
  }

  ghost function Whole(p: Program, a: nat, b: nat): seq<Message>
    requires Pair(p, a, b)
  {
    Stream(p, a, b, |p.rounds|)
  }

  lemma StreamStep(p: Program, a: nat, b: nat, r: nat)
    requires Pair(p, a, b) && r < |p.rounds|
    ensures Stream(p, a, b, r + 1) == Stream(p, a, b, r) + WireOf(p, a, b, r)
  {
    hide Valid, WireOf;
  }

  lemma {:induction false} StreamGrows(p: Program, a: nat, b: nat, r: nat, r': nat)
    requires Pair(p, a, b) && r <= r' <= |p.rounds|
    ensures Stream(p, a, b, r) <= Stream(p, a, b, r')
    decreases r' - r
  {
    hide Valid, WireOf;
    if r < r' {
      StreamGrows(p, a, b, r, r' - 1);
    }
  }

  /** FIFO order alone fixes the round a message belongs to: the message after the streams of `r`
      rounds and `k` more is message `k` of round `r`. */
  lemma RoundOfMessage(p: Program, a: nat, b: nat, r: nat, k: nat, sent: seq<Message>)
    requires Pair(p, a, b) && r < |p.rounds|
    requires k < |WireOf(p, a, b, r)|
    requires sent <= Whole(p, a, b)
    requires |Stream(p, a, b, r)| + k < |sent|
    ensures sent[|Stream(p, a, b, r)| + k] == WireOf(p, a, b, r)[k]
  {
    hide WireOf, Valid, Stream;
    StreamStep(p, a, b, r);
    StreamGrows(p, a, b, r + 1, |p.rounds|);
  }
}
