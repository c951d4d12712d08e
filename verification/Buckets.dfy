/** The bounded token bucket behind the retry budget (utils/bucket.py). */
module Buckets {

  /** What the lock serialises: calls with their outcome. */
  datatype Event = Added(amount: real) | Taken(amount: real) | Refused(amount: real)

  /** A call before its outcome is known. */
  datatype Op = Add(amount: real) | Consume(amount: real)

  /** The stored level after a history: what `_tokens` holds. */
  function Level(capacity: real, h: seq<Event>): real {
    if h == [] then capacity
    else
      var before := Level(capacity, h[..|h| - 1]);
      match h[|h| - 1]
      case Added(t) => if before + t < capacity then before + t else capacity
      case Taken(t) => before - t
      case Refused(_) => before
  }

  /** Outcomes agree with the level at the moment of each call. */
  predicate Genuine(capacity: real, h: seq<Event>) {
    h == [] ||
    var past := h[..|h| - 1];
    && Genuine(capacity, past)
    && match h[|h| - 1]
       case Added(_) => true
       case Taken(t) => t <= Level(capacity, past)
       case Refused(t) => Level(capacity, past) < t
  }

  /** Tokens put in by a stretch of history, before clipping at the capacity. */
  function Refilled(h: seq<Event>): real {
    if h == [] then 0.0
    else Refilled(h[..|h| - 1]) + if h[|h| - 1].Added? then h[|h| - 1].amount else 0.0
  }

  /** Tokens handed out by a stretch of history. */
  function Spent(h: seq<Event>): real {
    if h == [] then 0.0
    else Spent(h[..|h| - 1]) + if h[|h| - 1].Taken? then h[|h| - 1].amount else 0.0
  }

  predicate SpendsNonNegative(h: seq<Event>) {
    forall k :: 0 <= k < |h| && h[k].Taken? ==> h[k].amount >= 0.0
  }

  /** Room the window `h[from..]` leaves under its cap of capacity plus its own refills. */
  function Headroom(capacity: real, h: seq<Event>, from: nat): real
    requires from <= |h|
  {
    capacity + Refilled(h[from..]) - Spent(h[from..])
  }

  lemma HeadroomExtends(capacity: real, h: seq<Event>, e: Event, from: nat)
    requires from <= |h|
    ensures Headroom(capacity, h + [e], from)
            == Headroom(capacity, h, from)
               + (if e.Added? then e.amount else 0.0) - (if e.Taken? then e.amount else 0.0)
  {
    var w := h[from..] + [e];
    assert (h + [e])[from..] == w;
    assert w[..|w| - 1] == h[from..];
  }

  lemma LevelExtends(capacity: real, h: seq<Event>, e: Event)
    ensures Level(capacity, h + [e])
            == match e
               case Added(t) => (if Level(capacity, h) + t < capacity then Level(capacity, h) + t else capacity)
               case Taken(t) => Level(capacity, h) - t
               case Refused(_) => Level(capacity, h)
    ensures Genuine(capacity, h + [e])
            <==> Genuine(capacity, h)
                 && (e.Taken? ==> e.amount <= Level(capacity, h))
                 && (e.Refused? ==> Level(capacity, h) < e.amount)
  {
    assert (h + [e])[..|h + [e]| - 1] == h;
  }

  /** The level is the least headroom over all windows that end now. */
  lemma {:induction false} LevelIsLeastHeadroom(capacity: real, h: seq<Event>)
    requires SpendsNonNegative(h)
    ensures forall from: nat :: from <= |h| ==> Level(capacity, h) <= Headroom(capacity, h, from)
    ensures exists from: nat :: from <= |h| && Level(capacity, h) == Headroom(capacity, h, from)
  {
    assert h[|h|..] == [];
    assert Headroom(capacity, h, |h|) == capacity;
    if h != [] {
      var past, e := h[..|h| - 1], h[|h| - 1];
      assert h == past + [e];
      LevelIsLeastHeadroom(capacity, past);
      LevelExtends(capacity, past, e);
      assert past[|past|..] == [];
      assert Level(capacity, past) <= Headroom(capacity, past, |past|) == capacity;
      forall from: nat | from <= |h|
        ensures Level(capacity, h) <= Headroom(capacity, h, from)
      {
        if from < |h| { HeadroomExtends(capacity, past, e, from); }
      }
      var best: nat :| best <= |past| && Level(capacity, past) == Headroom(capacity, past, best);
      HeadroomExtends(capacity, past, e, best);
      assert Level(capacity, h) == Headroom(capacity, h, best) || Level(capacity, h) == Headroom(capacity, h, |h|);
    }
  }

  /** No window ending now would hand out more than the capacity plus its own refills. */
  ghost predicate EveryWindowAffords(capacity: real, h: seq<Event>, amount: real) {
    forall from: nat :: from <= |h| ==> Spent(h[from..]) + amount <= capacity + Refilled(h[from..])
  }

  /** Admission by level is exactly admission by windows. */
  lemma ExactAdmission(capacity: real, h: seq<Event>, amount: real)
    requires SpendsNonNegative(h)
    ensures amount <= Level(capacity, h) <==> EveryWindowAffords(capacity, h, amount)
  {
    LevelIsLeastHeadroom(capacity, h);
    var best: nat :| best <= |h| && Level(capacity, h) == Headroom(capacity, h, best);
    if amount <= Level(capacity, h) {
      forall from: nat | from <= |h|
        ensures Spent(h[from..]) + amount <= capacity + Refilled(h[from..])
      {
        assert Level(capacity, h) <= Headroom(capacity, h, from);
      }
    }
  }

  /** Over any window of a genuine history, spending is at most capacity plus refills. */
  lemma WindowSpending(capacity: real, before: seq<Event>, window: seq<Event>)
    requires SpendsNonNegative(before + window)
    requires 0.0 <= Level(capacity, before + window)
    ensures Spent(window) <= capacity + Refilled(window)
  {
    var h := before + window;
    LevelIsLeastHeadroom(capacity, h);
    assert h[|before|..] == window;
    assert Level(capacity, h) <= Headroom(capacity, h, |before|);
  }

  /** The level never leaves [0, capacity] when refills are not negative. */
  lemma {:induction false} LevelWithinBounds(capacity: real, h: seq<Event>)
    requires 0.0 <= capacity && Genuine(capacity, h) && SpendsNonNegative(h)
    requires forall k :: 0 <= k < |h| && h[k].Added? ==> h[k].amount >= 0.0
    ensures 0.0 <= Level(capacity, h) <= capacity
  {
    if h != [] {
      LevelWithinBounds(capacity, h[..|h| - 1]);
    }
  }

  /** One call, with its outcome, appended to a history. */
  function Apply(capacity: real, h: seq<Event>, op: Op): seq<Event> {
    match op
    case Add(t) => h + [Added(t)]
    case Consume(t) => h + [if t <= Level(capacity, h) then Taken(t) else Refused(t)]
  }

  function ApplyAll(capacity: real, h: seq<Event>, ops: seq<Op>): seq<Event> {
    if ops == [] then h else Apply(capacity, ApplyAll(capacity, h, ops[..|ops| - 1]), ops[|ops| - 1])
  }

  lemma {:induction false} ApplyAllGenuine(capacity: real, h: seq<Event>, ops: seq<Op>)
    requires Genuine(capacity, h)
    ensures Genuine(capacity, ApplyAll(capacity, h, ops))
  {
    if ops != [] {
      ApplyAllGenuine(capacity, h, ops[..|ops| - 1]);
      var past := ApplyAll(capacity, h, ops[..|ops| - 1]);
      match ops[|ops| - 1]
      case Add(t) => LevelExtends(capacity, past, Added(t));
      case Consume(t) => LevelExtends(capacity, past, if t <= Level(capacity, past) then Taken(t) else Refused(t));
    }
  }

  class Bucket {
    const capacity: real
    var tokens: real
    ghost var history: seq<Event>

    ghost predicate Valid() reads this {
      Genuine(capacity, history) && tokens == Level(capacity, history)
    }

    constructor (capacity: real)
      ensures Valid() && history == [] && this.capacity == capacity
    {
      this.capacity := capacity;
      tokens := capacity;
      history := [];
    }

    method Add(amount: real)
      requires Valid()
      modifies this
      ensures Valid() && history == Apply(capacity, old(history), Op.Add(amount))
    {
      LevelExtends(capacity, history, Added(amount));
      tokens := if tokens + amount < capacity then tokens + amount else capacity;
      history := history + [Added(amount)];
    }

    method Consume(amount: real) returns (admitted: bool)
      requires Valid()
      modifies this
      ensures Valid() && history == Apply(capacity, old(history), Op.Consume(amount))
      ensures admitted <==> amount <= Level(capacity, old(history))
      ensures SpendsNonNegative(old(history)) ==>
                (admitted <==> EveryWindowAffords(capacity, old(history), amount))
    {
      if SpendsNonNegative(history) { ExactAdmission(capacity, history, amount); }
      if tokens < amount {
        LevelExtends(capacity, history, Refused(amount));
        history := history + [Refused(amount)];
        return false;
      }
      LevelExtends(capacity, history, Taken(amount));
      tokens := tokens - amount;
      history := history + [Taken(amount)];
      return true;
    }
  }

  /** Other requests using the bucket while this one is between two of its own calls. */
  method OtherRequests(bucket: Bucket, ops: seq<Op>)
    requires bucket.Valid()
    modifies bucket
    ensures bucket.Valid() && bucket.history == ApplyAll(bucket.capacity, old(bucket.history), ops)
  {
    for k := 0 to |ops|
      invariant bucket.Valid()
      invariant bucket.history == ApplyAll(bucket.capacity, old(bucket.history), ops[..k])
    {
      assert ops[..k + 1][..k] == ops[..k];
      match ops[k] {
        case Add(t) => bucket.Add(t);
        case Consume(t) => var _ := bucket.Consume(t);
      }
    }
    assert ops[..|ops|] == ops;
  }
}
