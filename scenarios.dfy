/** The engine's behaviour in the three situations its tests exercise: one
    emission, merging two engines, and a handler observing emissions of
    different kinds. */
module Scenarios {
  import opened Text
  import opened Diagnostics
  import opened Engine

  const Foo := FooDiag(["foo", "bar"], "str", 2)

  /** The texts `Foo`'s fields render to. */
  lemma FooFieldTexts()
    ensures Join(["foo", "bar"], ", ") == "foo, bar"
    ensures IntToString(2) == "2"
  {
  }

  /** The rendering of `Foo` spelled out from its field texts; kept apart from
      `FooRendering` to keep the solver's cost down. */
  lemma SpelledRendering(arr: string, n: string)
    requires arr == "foo, bar" && n == "2"
    ensures "literal" + " " + arr + " " + n + " " + "str" + " " + "bar" + " " + "str"
         == "literal foo, bar 2 str bar str"
  {
  }

  /** The annotated walk of `Foo` spelled out from its field texts; kept apart
      from `FooAnnotation` to keep the solver's cost down. */
  lemma SpelledAnnotation(arr: string, n: string)
    requires arr == "foo, bar" && n == "2"
    ensures ("literal" + "default") + (arr + "default") + (n + "default")
            + ("str" + "default") + ("bar" + "high") + ("str" + "low")
         == "literaldefaultfoo, bardefault2defaultstrdefaultbarhighstrlow"
  {
    var r1 := ("literal" + "default") + (arr + "default");
    assert r1 == "literaldefaultfoo, bardefault";
    var r2 := r1 + (n + "default") + ("str" + "default");
    assert r2 == "literaldefaultfoo, bardefault2defaultstrdefault";
  }

  /** Rendering `Foo` through its kind's template. */
  lemma FooRendering()
    ensures Render(FooDiagID.description, Foo) == "literal foo, bar 2 str bar str"
  {
    FooFieldTexts();
    SpelledRendering(Join(["foo", "bar"], ", "), IntToString(2));
    FooDiagDescription(["foo", "bar"], "str", 2);
  }

  /** Walking `Foo`'s template with each fragment's preference. */
  lemma FooAnnotation()
    ensures Annotated(FooDiagID.description, Foo)
         == "literaldefaultfoo, bardefault2defaultstrdefaultbarhighstrlow"
  {
    FooFieldTexts();
    SpelledAnnotation(Join(["foo", "bar"], ", "), IntToString(2));
    FooDiagAnnotated(["foo", "bar"], "str", 2);
  }

  /** One emission on a fresh engine: one diagnostic, carrying the location,
      the kind's name and behaviour and the rendered description; walking
      the kind's template with preferences gives each text and its rank. */
  method Basics() returns (count: nat, diag: Diagnostic, annotated: string)
    ensures count == 1
    ensures diag.location.localizedDescription == "foo loc"
    ensures diag.localizedDescription == "literal foo, bar 2 str bar str"
    ensures diag.behavior == Error
    ensures diag.id.name == "org.swift.diags.tests.cycle" && diag.id.defaultBehavior == Error
    ensures annotated == "literaldefaultfoo, bardefault2defaultstrdefaultbarhighstrlow"
  {
    var engine := new DiagnosticsEngine(0);
    engine.Emit(Foo, Location("foo loc"));
    count := |engine.diagnostics|;
    diag := engine.diagnostics[0];
    FooRendering();
    annotated := DescribeWithPreferences(diag.id.description, diag.data);
    FooAnnotation();
  }

  /** Merging an engine holding two emissions of `data` into one holding a
      single emission leaves three in the target and two in the source. */
  method MergeCounts(data: Payload, location: Location)
    returns (before1: nat, before2: nat, after1: nat, after2: nat)
    ensures before1 == 1 && before2 == 2
    ensures after1 == 3 && after2 == 2
  {
    var engine1 := new DiagnosticsEngine(0);
    engine1.Emit(data, location);
    before1 := |engine1.diagnostics|;
    var engine2 := new DiagnosticsEngine(0);
    engine2.Emit(data, location);
    engine2.Emit(data, location);
    before2 := |engine2.diagnostics|;
    engine1.Merge(engine2);
    after1, after2 := |engine1.diagnostics|, |engine2.diagnostics|;
  }

  /** The merging test: the counts before and after merging `Foo` emissions. */
  method Merging() returns (before1: nat, before2: nat, after1: nat, after2: nat)
    ensures before1 == 1 && before2 == 2
    ensures after1 == 3 && after2 == 2
  {
    before1, before2, after1, after2 := MergeCounts(Foo, Location("foo loc"));
  }

  /** The descriptions of the three diagnostics the handler scenario emits,
      proved apart from the engine's state to keep the solver's cost down. */
  lemma EmittedDescriptions(ds: seq<Diagnostic>, location: Location)
    requires ds == [MakeDiagnostic(Foo, location), MakeDiagnostic(StringDiagnostic("diag 2"), location),
                    MakeDiagnostic(StringDiagnostic("end"), location)]
    ensures ds[0].localizedDescription == "literal foo, bar 2 str bar str"
    ensures ds[1].localizedDescription == "diag 2"
    ensures ds[2].localizedDescription == "end"
  {
    FooRendering();
    StringDiagnosticDescription("diag 2");
    StringDiagnosticDescription("end");
  }

  /** A one-handler engine that receives `a`, `b` and `c` in that order:
      the handler sees exactly what the engine collects. */
  method HandleInOrder(a: Payload, b: Payload, c: Payload, location: Location)
    returns (handled: seq<Diagnostic>, collected: seq<Diagnostic>)
    ensures handled == collected
    ensures handled == [MakeDiagnostic(a, location), MakeDiagnostic(b, location), MakeDiagnostic(c, location)]
  {
    var engine := new DiagnosticsEngine(1);
    assert engine.HandlerLog(0) == [];
    engine.Emit(a, location);
    engine.Emit(b, location);
    engine.Emit(c, location);
    handled, collected := engine.HandlerLog(0), engine.diagnostics;
  }

  /** A handler registered at construction sees three emissions of two
      kinds, in order, each with the emitted location and rendered with its
      own kind's template; it receives exactly what the engine collected. */
  method Handlers() returns (handled: seq<Diagnostic>, collected: seq<Diagnostic>)
    ensures handled == collected
    ensures |handled| == 3
    ensures forall i :: 0 <= i < |handled| ==> handled[i].location.localizedDescription == "location"
    ensures handled[0].localizedDescription == "literal foo, bar 2 str bar str"
    ensures handled[1].localizedDescription == "diag 2"
    ensures handled[2].localizedDescription == "end"
  {
    var location := Location("location");
    handled, collected := HandleInOrder(Foo, StringDiagnostic("diag 2"), StringDiagnostic("end"), location);
    EmittedDescriptions(handled, location);
  }
}
