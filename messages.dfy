/**
 * Messages as the Pushover Open Client API returns them, the highest-id
 * fold used to acknowledge a batch, and the empty/non-empty classification
 * of a downloaded batch.
 */
module Messages {
  import opened Basics

  /** Rust's `i64`: message ids are only compared, never added, so no wrap-around arises. */
  newtype int64 = x: int | -0x8000_0000_0000_0000 <= x < 0x8000_0000_0000_0000

  /** One message of a downloaded batch (`POMessage`). */
  datatype Message = Message(id: int64, title: string, body: string)

  /** `x` is the id of some message of `ms`. */
  ghost predicate IsIdOf(x: int64, ms: seq<Message>)
  {
    exists i :: 0 <= i < |ms| && ms[i].id == x
  }

  /** `x` is at least every id in `ms`. */
  ghost predicate Bounds(x: int64, ms: seq<Message>)
  {
    forall i :: 0 <= i < |ms| ==> ms[i].id <= x
  }

  /** The step of the fold: keep the running maximum unless the message's id is larger. */
  function Larger(max: int64, m: Message): int64
  {
    if m.id > max then m.id else max
  }

  /**
   * Left fold of `Larger` over the batch, starting from `max`. The result is
   * never below the seed, bounds every id, and is either the seed or one of the ids.
   */
  function FoldMax(max: int64, ms: seq<Message>): (r: int64)
    ensures max <= r
    ensures Bounds(r, ms)
    ensures r == max || IsIdOf(r, ms)
    decreases |ms|
  {
    if ms == [] then max
    else
      var r := FoldMax(Larger(max, ms[0]), ms[1..]);
      assert IsIdOf(r, ms[1..]) ==> IsIdOf(r, ms) by {
        if IsIdOf(r, ms[1..]) {
          var i :| 0 <= i < |ms[1..]| && ms[1..][i].id == r;
          assert ms[i + 1].id == r;
        }
      }
      r
  }

  /**
   * The id sent to the server to acknowledge a batch: the fold seeded with 0.
   * It is never negative, bounds every id of the batch, and is 0 unless it is one of them.
   */
  function AckId(ms: seq<Message>): (r: int64)
    ensures 0 <= r
    ensures Bounds(r, ms)
    ensures r == 0 || IsIdOf(r, ms)
  {
    FoldMax(0, ms)
  }

  /** When some id is positive, the acknowledged id is the largest id of the batch. */
  lemma AckIdIsLargestWhenPositive(ms: seq<Message>, k: nat)
    requires k < |ms| && ms[k].id > 0
    ensures IsIdOf(AckId(ms), ms) && Bounds(AckId(ms), ms)
  {
  }

  /** When no id is positive (in particular for an empty batch), the acknowledged id is 0. */
  lemma AckIdIsZeroWhenNonePositive(ms: seq<Message>)
    requires forall i :: 0 <= i < |ms| ==> ms[i].id <= 0
    ensures AckId(ms) == 0
  {
  }

  /** Folding over a concatenation is folding over the second part from the first part's result. */
  lemma {:induction false} FoldMaxAppend(max: int64, a: seq<Message>, b: seq<Message>)
    ensures FoldMax(max, a + b) == FoldMax(FoldMax(max, a), b)
    decreases |a|
  {
    if a != [] {
      assert (a + b)[0] == a[0] && (a + b)[1..] == a[1..] + b;
      FoldMaxAppend(Larger(max, a[0]), a[1..], b);
    } else {
      assert a + b == b;
    }
  }

  /** The acknowledged id depends only on which ids occur, not on their order. */
  lemma AckIdOrderIndependent(a: seq<Message>, b: seq<Message>)
    requires multiset(a) == multiset(b)
    ensures AckId(a) == AckId(b)
  {
    var x, y := AckId(a), AckId(b);
    if x != 0 {
      var i :| 0 <= i < |a| && a[i].id == x;
      assert a[i] in multiset(b);
      var j :| 0 <= j < |b| && b[j] == a[i];
      assert x <= y;
    }
    if y != 0 {
      var j :| 0 <= j < |b| && b[j].id == y;
      assert b[j] in multiset(a);
      var i :| 0 <= i < |a| && a[i] == b[j];
      assert y <= x;
    }
  }

  /** `download_messages`' classification: no batch for an empty list, the list itself otherwise. */
  function ClassifyBatch(ms: seq<Message>): (r: Option<seq<Message>>)
    ensures r.None? <==> ms == []
    ensures r.Some? ==> r.value != [] && r.value == ms
  {
    if |ms| == 0 then None else Some(ms)
  }

  /** The messages a classified batch holds: none for `None`. */
  function Unbatch(b: Option<seq<Message>>): seq<Message>
  {
    match b
    case None => []
    case Some(ms) => ms
  }

  /** Classification loses nothing and keeps the order: undoing it gives back the list. */
  lemma UnbatchClassify(ms: seq<Message>)
    ensures Unbatch(ClassifyBatch(ms)) == ms
  {
  }

  /** Every classification result other than `Some([])` is reached from the list it holds. */
  lemma ClassifyUnbatch(b: Option<seq<Message>>)
    requires b != Some([])
    ensures ClassifyBatch(Unbatch(b)) == b
  {
  }
}
