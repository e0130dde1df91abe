/** How one buffered transfer looks on the wire: a count message followed by batches that fit a
    staging buffer. Sender and receiver both cut the transfer by the arithmetic of `Batches`. */
module Wire {
  import opened Arith

  /** One element of a device buffer, whatever its width. */
  type Elem = int

  datatype Option<+T> = None | Some(value: T)

  /** What one UCX message carries: the number of elements, or one batch of them. */
  datatype Message = Count(n: nat) | Batch(items: seq<Elem>)

  function Min(a: int, b: int): int {
    if a < b then a else b
  }

  /** Batch number `k` of a buffer cut into pieces of `per` elements. */
  function Piece(data: seq<Elem>, per: nat, k: nat): seq<Elem>
    requires per * k <= |data|
  {
    data[per * k..Min(per * k + per, |data|)]
  }

  /** The batches numbered `k` and above. */
  function Batches(data: seq<Elem>, per: nat, k: nat): seq<Message>
    requires per > 0
    decreases |data| - per * k
  {
    if per * k >= |data| then [] else [Batch(Piece(data, per, k))] + Batches(data, per, k + 1)
  }

  /** Everything one transfer puts on its channel. */
  function Transfer(data: seq<Elem>, per: nat): seq<Message>
    requires per > 0
  {
    [Count(|data|)] + Batches(data, per, 0)
  }

  lemma {:induction false} BatchesAt(data: seq<Elem>, per: nat, k: nat, i: nat)
    requires per > 0
    requires i <= |Batches(data, per, k)|
    ensures per * (k + i) < |data| <==> i < |Batches(data, per, k)|
    ensures i < |Batches(data, per, k)| ==> Batches(data, per, k)[i] == Batch(Piece(data, per, k + i))
    decreases i
  {
    if i > 0 {
      BatchesAt(data, per, k + 1, i - 1);
      assert k + 1 + (i - 1) == k + i;
    }
  }

  /** After the count and `k` batches, elements are left exactly when messages are left, and the
      next message is batch `k`. Both ends decide on the left side, so they cut alike. */
  lemma NextMessage(data: seq<Elem>, per: nat, k: nat)
    requires per > 0
    requires k + 1 <= |Transfer(data, per)|
    ensures per * k < |data| <==> k + 1 < |Transfer(data, per)|
    ensures k + 1 < |Transfer(data, per)| ==> Transfer(data, per)[k + 1] == Batch(Piece(data, per, k))
  {
    BatchesAt(data, per, 0, k);
  }

  /** The batches number ceil(|data| / per), and laid end to end they are the data. */
  lemma BatchesTile(data: seq<Elem>, per: nat)
    requires per > 0
    ensures |Batches(data, per, 0)| == (|data| + per - 1) / per
    ensures Payload(Batches(data, per, 0)) == data
  {
    var n := |Batches(data, per, 0)|;
    BatchesAt(data, per, 0, n);
    if n > 0 { BatchesAt(data, per, 0, n - 1); }
    CeilIs(|data|, per, n);
    PayloadIs(data, per, 0);
  }

  lemma {:induction false} PayloadIs(data: seq<Elem>, per: nat, k: nat)
    requires per > 0
    ensures Payload(Batches(data, per, k)) == data[Min(per * k, |data|)..]
    decreases |data| - per * k
  {
    if per * k < |data| {
      PayloadIs(data, per, k + 1);
      assert Batches(data, per, k)[1..] == Batches(data, per, k + 1);
      assert per * (k + 1) == per * k + per;
    }
  }

  /** The elements carried by the batches of `ms`, in order. */
  function Payload(ms: seq<Message>): seq<Elem> {
    if ms == [] then [] else (if ms[0].Batch? then ms[0].items else []) + Payload(ms[1..])
  }
}
