/** The diagnostics engine: an append-only collection of diagnostics and the
    handlers it notifies as each one is emitted. */
module Engine {
  import opened Diagnostics

  /** One call of a handler: which handler (its position in registration
      order) and the diagnostic it was given. */
  datatype HandlerCall = HandlerCall(handler: nat, diagnostic: Diagnostic)

  /** The calls one emission makes: every handler once, in registration
      order, each with the same diagnostic. */
  function Fanout(handlerCount: nat, d: Diagnostic): seq<HandlerCall>
  {
    seq(handlerCount, (i: nat) => HandlerCall(i, d))
  }

  /** The diagnostics handler `h` received, in the order it received them. */
  function HandledBy(calls: seq<HandlerCall>, h: nat): (r: seq<Diagnostic>)
    ensures |r| <= |calls|
    ensures forall d :: d in r ==> HandlerCall(h, d) in calls
  {
    if calls == [] then []
    else (if calls[0].handler == h then [calls[0].diagnostic] else []) + HandledBy(calls[1..], h)
  }

  lemma {:induction false} HandledByAppend(a: seq<HandlerCall>, b: seq<HandlerCall>, h: nat)
    ensures HandledBy(a + b, h) == HandledBy(a, h) + HandledBy(b, h)
  {
    if a != [] {
      assert (a + b)[1..] == a[1..] + b;
      HandledByAppend(a[1..], b, h);
    } else {
      assert a + b == b;
    }
  }

  /** In one emission each registered handler receives the new diagnostic
      exactly once, and no other handler receives anything. */
  lemma {:induction false} HandledByFanout(handlerCount: nat, d: Diagnostic, h: nat)
    ensures HandledBy(Fanout(handlerCount, d), h) == if h < handlerCount then [d] else []
  {
    if handlerCount > 0 {
      var n := handlerCount - 1;
      assert Fanout(handlerCount, d) == Fanout(n, d) + [HandlerCall(n, d)];
      HandledByAppend(Fanout(n, d), [HandlerCall(n, d)], h);
      HandledByFanout(n, d, h);
      assert [HandlerCall(n, d)][1..] == [];
    } else {
      assert Fanout(0, d) == [];
    }
  }

  /** Calls none of which went to `h` gave `h` nothing. */
  lemma {:induction false} HandledByNone(calls: seq<HandlerCall>, h: nat)
    requires forall k :: 0 <= k < |calls| ==> calls[k].handler != h
    ensures HandledBy(calls, h) == []
  {
    if calls != [] {
      HandledByNone(calls[1..], h);
    }
  }

  class DiagnosticsEngine {
    /** The number of handlers registered at construction. */
    const handlerCount: nat
    /** Every diagnostic emitted into or merged into this engine, in order. */
    var diagnostics: seq<Diagnostic>
    /** Every handler call this engine made, in the order it made them. */
    var calls: seq<HandlerCall>

    ghost predicate Valid()
      reads this
    {
      && (forall i :: 0 <= i < |diagnostics| ==> WellFormed(diagnostics[i]))
      && (forall k :: 0 <= k < |calls| ==> calls[k].handler < handlerCount)
      && (forall k :: 0 <= k < |calls| ==> WellFormed(calls[k].diagnostic))
    }

    /** What handler `h` has received so far. */
    function HandlerLog(h: nat): seq<Diagnostic>
      reads this
    {
      HandledBy(calls, h)
    }

    /** Every diagnostic the engine holds, and every one a handler received,
        carries its payload's kind and that kind's default behaviour. */
    lemma DefaultBehaviors(h: nat)
      requires Valid()
      ensures forall i :: 0 <= i < |diagnostics| ==>
        diagnostics[i].id == IdOf(diagnostics[i].data) && diagnostics[i].behavior == diagnostics[i].id.defaultBehavior
      ensures forall d :: d in HandlerLog(h) ==> d.id == IdOf(d.data) && d.behavior == d.id.defaultBehavior
    {
      forall d | d in HandlerLog(h)
        ensures d.id == IdOf(d.data) && d.behavior == d.id.defaultBehavior
      {
        var k :| 0 <= k < |calls| && calls[k] == HandlerCall(h, d);
      }
    }

    /** A handler that was never registered has received nothing. */
    lemma UnregisteredHandlerLog(h: nat)
      requires Valid() && h >= handlerCount
      ensures HandlerLog(h) == []
    {
      HandledByNone(calls, h);
    }

    constructor (handlerCount: nat)
      ensures Valid()
      ensures this.handlerCount == handlerCount
      ensures diagnostics == [] && calls == []
    {
      this.handlerCount := handlerCount;
      diagnostics := [];
      calls := [];
    }

    /** Makes the diagnostic for `data` at `location`, appends it, then calls
        every handler with it in registration order. */
    method Emit(data: Payload, location: Location)
      requires Valid()
      modifies this
      ensures Valid()
      ensures diagnostics == old(diagnostics) + [MakeDiagnostic(data, location)]
      ensures calls == old(calls) + Fanout(handlerCount, MakeDiagnostic(data, location))
      ensures forall h :: 0 <= h < handlerCount ==>
        HandlerLog(h) == old(HandlerLog(h)) + [MakeDiagnostic(data, location)]
    {
      var d := MakeDiagnostic(data, location);
      diagnostics := diagnostics + [d];
      var i := 0;
      while i < handlerCount
        invariant 0 <= i <= handlerCount
        invariant diagnostics == old(diagnostics) + [d]
        invariant calls == old(calls) + Fanout(i, d)
      {
        assert Fanout(i + 1, d) == Fanout(i, d) + [HandlerCall(i, d)];
        calls := calls + [HandlerCall(i, d)];
        i := i + 1;
      }
      forall h | 0 <= h < handlerCount
        ensures HandlerLog(h) == old(HandlerLog(h)) + [d]
      {
        HandledByAppend(old(calls), Fanout(handlerCount, d), h);
        HandledByFanout(handlerCount, d, h);
      }
    }

    /** Appends all of `other`'s diagnostics, in their order, without
        calling any handler and without changing `other`. */
    method Merge(other: DiagnosticsEngine)
      requires Valid() && other.Valid()
      modifies this
      ensures Valid()
      ensures diagnostics == old(diagnostics) + old(other.diagnostics)
      ensures calls == old(calls)
      ensures other != this ==> other.diagnostics == old(other.diagnostics)
    {
      diagnostics := diagnostics + other.diagnostics;
    }
  }
}
