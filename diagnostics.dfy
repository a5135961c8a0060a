/** Diagnostic kinds, their description templates and the diagnostics built
    from them: the data the engine collects. The two kinds are the ones the
    engine's tests declare, `StringDiagnostic` and `FooDiag`. */
module Diagnostics {
  import opened Text

  /** The rank a fragment carries as metadata; rendering ignores it. */
  datatype Preference = Default | Low | High

  /** The text Swift's string interpolation gives a preference. */
  function PreferenceName(p: Preference): (name: string)
    ensures p == Default <==> name == "default"
    ensures p == Low <==> name == "low"
    ensures p == High <==> name == "high"
  {
    match p
    case Default => "default"
    case Low => "low"
    case High => "high"
  }

  /** Severity of a diagnostic. */
  datatype Behavior = Note | Warning | Error

  /** One variant per diagnostic kind. Swift's `FooDiag.int` is `integer`
      here, as `int` is a type name in Dafny. */
  datatype Payload =
    | FooDiag(arr: seq<string>, str: string, integer: int)
    | StringDiagnostic(str: string)

  /** What a substitution fragment reads from a payload: `arr` joined with
      ", ", the integer field, or the string field. */
  datatype Accessor = ArrJoined | Int | Str

  /** Whether the payload's variant has the field `a` reads; a template whose
      substitutions all pass this needs no downcast. */
  predicate Reads(p: Payload, a: Accessor)
  {
    p.FooDiag? || a == Str
  }

  /** The rendered text of the field `a` of `p`. */
  function Access(p: Payload, a: Accessor): string
    requires Reads(p, a)
  {
    match a
    case ArrJoined => Join(p.arr, ", ")
    case Int => IntToString(p.integer)
    case Str => p.str
  }

  /** One unit of a description template. */
  datatype Fragment =
    | Literal(text: string, preference: Preference)
    | Substitution(accessor: Accessor, preference: Preference)

  /** Every substitution of `description` reads a field `p` has. */
  predicate Fits(description: seq<Fragment>, p: Payload)
  {
    forall i :: 0 <= i < |description| ==>
      description[i].Substitution? ==> Reads(p, description[i].accessor)
  }

  /** The text one fragment contributes. */
  function FragmentText(f: Fragment, p: Payload): string
    requires f.Substitution? ==> Reads(p, f.accessor)
  {
    match f
    case Literal(text, _) => text
    case Substitution(a, _) => Access(p, a)
  }

  /** The fragments' texts, in declaration order. */
  function Texts(description: seq<Fragment>, p: Payload): (texts: seq<string>)
    requires Fits(description, p)
    ensures |texts| == |description|
    ensures forall i :: 0 <= i < |description| ==> texts[i] == FragmentText(description[i], p)
  {
    if description == [] then []
    else [FragmentText(description[0], p)] + Texts(description[1..], p)
  }

  /** A template rendered against a payload: the fragments' texts in
      declaration order with one space between each two of them. */
  function Render(description: seq<Fragment>, p: Payload): (r: string)
    requires Fits(description, p)
    ensures |description| > 0 ==> FragmentText(description[0], p) <= r
    ensures |description| == 1 ==> r == FragmentText(description[0], p)
  {
    Join(Texts(description, p), " ")
  }

  /** Where fragment `i`'s text starts in the rendered description. */
  function FragmentOffset(description: seq<Fragment>, p: Payload, i: nat): nat
    requires Fits(description, p) && i <= |description|
  {
    Offset(Texts(description, p), " ", i)
  }

  /** Rendering places each fragment's text verbatim at its offset. */
  lemma RenderFragmentAt(description: seq<Fragment>, p: Payload, i: nat)
    requires Fits(description, p) && i < |description|
    ensures FragmentOffset(description, p, i) + |FragmentText(description[i], p)| <= |Render(description, p)|
    ensures Render(description, p)[FragmentOffset(description, p, i)..FragmentOffset(description, p, i) + |FragmentText(description[i], p)|]
         == FragmentText(description[i], p)
  {
    JoinPartAt(Texts(description, p), " ", i);
  }

  /** Between the texts of fragments `i` and `i + 1` lies exactly one space. */
  lemma RenderSpaceAt(description: seq<Fragment>, p: Payload, i: nat)
    requires Fits(description, p) && i + 1 < |description|
    ensures FragmentOffset(description, p, i + 1) <= |Render(description, p)|
    ensures FragmentOffset(description, p, i + 1)
         == FragmentOffset(description, p, i) + |FragmentText(description[i], p)| + 1
    ensures Render(description, p)[FragmentOffset(description, p, i + 1) - 1] == ' '
  {
    var texts := Texts(description, p);
    JoinSeparatorAt(texts, " ", i);
    var k := Offset(texts, " ", i) + |texts[i]|;
    assert Join(texts, " ")[k..k + 1] == " ";
  }

  /** Nothing precedes the first fragment's text and nothing follows the
      last: the rendered length is every text plus one space per gap. */
  lemma RenderLength(description: seq<Fragment>, p: Payload)
    requires Fits(description, p) && |description| > 0
    ensures |Render(description, p)|
         == FragmentOffset(description, p, |description| - 1) + |FragmentText(description[|description| - 1], p)|
  {
    JoinLength(Texts(description, p), " ");
  }

  /** Appending a fragment appends one space and its text. */
  lemma RenderSnoc(description: seq<Fragment>, f: Fragment, p: Payload)
    requires Fits(description, p) && |description| > 0
    requires f.Substitution? ==> Reads(p, f.accessor)
    ensures Fits(description + [f], p)
    ensures Render(description + [f], p) == Render(description, p) + " " + FragmentText(f, p)
  {
    assert Texts(description + [f], p) == Texts(description, p) + [FragmentText(f, p)];
    JoinSnoc(Texts(description, p), FragmentText(f, p), " ");
  }

  /** A diagnostic kind: its unique name, its severity and its template. */
  datatype DiagnosticID = DiagnosticID(name: string, defaultBehavior: Behavior, description: seq<Fragment>)

  /** `StringDiagnostic`'s kind: the string field alone. No behaviour is
      given, so it takes the constructor's default, `Error`. */
  const StringDiagnosticID := DiagnosticID(
    "org.swift.diags.string-diagnostic",
    Error,
    [Substitution(Str, Default)])

  /** `FooDiag`'s kind. */
  const FooDiagID := DiagnosticID(
    "org.swift.diags.tests.cycle",
    Error,
    [ Literal("literal", Default),
      Substitution(ArrJoined, Default),
      Substitution(Int, Default),
      Substitution(Str, Default),
      Literal("bar", High),
      Substitution(Str, Low) ])

  /** The kind of a payload (Swift's static `id` of the payload's type).
      Its template reads only fields the payload has. */
  function IdOf(p: Payload): (id: DiagnosticID)
    ensures Fits(id.description, p)
    ensures p.FooDiag? <==> id.name == "org.swift.diags.tests.cycle"
    ensures p.StringDiagnostic? <==> id.name == "org.swift.diags.string-diagnostic"
  {
    match p
    case FooDiag(_, _, _) => FooDiagID
    case StringDiagnostic(_) => StringDiagnosticID
  }

  /** `FooDiag`'s description for any payload: its six fragments' texts in
      declaration order, one space apart. */
  lemma FooDiagDescription(arr: seq<string>, str: string, integer: int)
    ensures Render(FooDiagID.description, FooDiag(arr, str, integer))
         == "literal" + " " + Join(arr, ", ") + " " + IntToString(integer) + " " + str + " " + "bar" + " " + str
  {
    var t := Texts(FooDiagID.description, FooDiag(arr, str, integer));
    assert t[..1] == [t[0]];
    JoinSnoc(t[..1], t[1], " "); assert t[..1] + [t[1]] == t[..2];
    JoinSnoc(t[..2], t[2], " "); assert t[..2] + [t[2]] == t[..3];
    JoinSnoc(t[..3], t[3], " "); assert t[..3] + [t[3]] == t[..4];
    JoinSnoc(t[..4], t[4], " "); assert t[..4] + [t[4]] == t[..5];
    JoinSnoc(t[..5], t[5], " "); assert t[..5] + [t[5]] == t;
  }

  /** `StringDiagnostic`'s description is its string, with no space added. */
  lemma StringDiagnosticDescription(str: string)
    ensures Render(StringDiagnosticID.description, StringDiagnostic(str)) == str
  {
  }

  /** Where a diagnostic was emitted from; the engine only reads its text. */
  datatype Location = Location(localizedDescription: string)

  /** One emitted diagnostic; its description is rendered when it is made. */
  datatype Diagnostic = Diagnostic(
    id: DiagnosticID,
    data: Payload,
    location: Location,
    behavior: Behavior,
    localizedDescription: string)

  /** A diagnostic as the engine makes it: the kind of its payload, that
      kind's behaviour, and the kind's template rendered against the payload. */
  ghost predicate WellFormed(d: Diagnostic)
  {
    && d.id == IdOf(d.data)
    && d.behavior == d.id.defaultBehavior
    && d.localizedDescription == Render(IdOf(d.data).description, d.data)
  }

  /** The diagnostic built for one emission. */
  function MakeDiagnostic(data: Payload, location: Location): (d: Diagnostic)
    ensures WellFormed(d)
    ensures d.data == data && d.location == location
  {
    var id := IdOf(data);
    Diagnostic(id, data, location, id.defaultBehavior, Render(id.description, data))
  }

  /** A fragment's text immediately followed by its preference's name. */
  function Tagged(f: Fragment, p: Payload): string
    requires f.Substitution? ==> Reads(p, f.accessor)
  {
    FragmentText(f, p) + PreferenceName(f.preference)
  }

  /** Every fragment tagged, in declaration order, with nothing between. */
  function Annotated(description: seq<Fragment>, p: Payload): string
    requires Fits(description, p)
  {
    if description == [] then ""
    else Tagged(description[0], p) + Annotated(description[1..], p)
  }

  lemma {:induction false} AnnotatedSnoc(description: seq<Fragment>, f: Fragment, p: Payload)
    requires Fits(description + [f], p)
    ensures Fits(description, p) && (f.Substitution? ==> Reads(p, f.accessor))
    ensures Annotated(description + [f], p) == Annotated(description, p) + Tagged(f, p)
  {
    var all := description + [f];
    assert all[|description|] == f;
    assert forall i :: 0 <= i < |description| ==> all[i] == description[i];
    if description != [] {
      var rest := description[1..];
      assert all[0] == description[0];
      assert all[1..] == rest + [f];
      AnnotatedSnoc(rest, f, p);
      var head, tail := Tagged(description[0], p), Tagged(f, p);
      assert Annotated(all, p) == head + (Annotated(rest, p) + tail);
      assert head + (Annotated(rest, p) + tail) == (head + Annotated(rest, p)) + tail;
    } else {
      assert all[1..] == [];
      assert Annotated(all, p) == Tagged(f, p) + "";
    }
  }

  /** Walks the template fragment by fragment and appends each fragment's
      text and its preference's name to the result. */
  method DescribeWithPreferences(description: seq<Fragment>, p: Payload) returns (result: string)
    requires Fits(description, p)
    ensures result == Annotated(description, p)
  {
    result := "";
    var k := 0;
    while k < |description|
      invariant 0 <= k <= |description|
      invariant Fits(description[..k], p)
      invariant result == Annotated(description[..k], p)
    {
      var f := description[k];
      assert description[..k + 1] == description[..k] + [f];
      AnnotatedSnoc(description[..k], f, p);
      result := result + (FragmentText(f, p) + PreferenceName(f.preference));
      k := k + 1;
    }
    assert description[..k] == description;
  }

  /** The annotated walk of `FooDiag`'s template. */
  lemma FooDiagAnnotated(arr: seq<string>, str: string, integer: int)
    ensures Annotated(FooDiagID.description, FooDiag(arr, str, integer))
         == ("literal" + "default") + (Join(arr, ", ") + "default") + (IntToString(integer) + "default")
            + (str + "default") + ("bar" + "high") + (str + "low")
  {
    var d := FooDiagID.description;
    var p := FooDiag(arr, str, integer);
    var t0, t1, t2 := Tagged(d[0], p), Tagged(d[1], p), Tagged(d[2], p);
    var t3, t4, t5 := Tagged(d[3], p), Tagged(d[4], p), Tagged(d[5], p);
    assert Annotated(d[..1], p) == t0 by {
      assert d[..1] == [d[0]];
      assert Annotated(d[..1], p) == t0 + "";
    }
    assert Annotated(d[..2], p) == t0 + t1 by {
      AnnotatedSnoc(d[..1], d[1], p); assert d[..1] + [d[1]] == d[..2];
    }
    assert Annotated(d[..3], p) == t0 + t1 + t2 by {
      AnnotatedSnoc(d[..2], d[2], p); assert d[..2] + [d[2]] == d[..3];
    }
    assert Annotated(d[..4], p) == t0 + t1 + t2 + t3 by {
      AnnotatedSnoc(d[..3], d[3], p); assert d[..3] + [d[3]] == d[..4];
    }
    assert Annotated(d[..5], p) == t0 + t1 + t2 + t3 + t4 by {
      AnnotatedSnoc(d[..4], d[4], p); assert d[..4] + [d[4]] == d[..5];
    }
    assert Annotated(d, p) == t0 + t1 + t2 + t3 + t4 + t5 by {
      AnnotatedSnoc(d[..5], d[5], p); assert d[..5] + [d[5]] == d;
    }
  }

  /** Builds a template fragment by fragment, as the `<<<` operator does. */
  class DescriptionBuilder {
    var fragments: seq<Fragment>

    constructor ()
      ensures fragments == []
    {
      fragments := [];
    }

    /** `<<< fragment`: appends a fragment as given. */
    method Append(f: Fragment)
      modifies this
      ensures fragments == old(fragments) + [f]
    {
      fragments := fragments + [f];
    }

    /** `<<< "text"`: a literal with the default preference. */
    method AppendLiteral(text: string)
      modifies this
      ensures fragments == old(fragments) + [Literal(text, Default)]
    {
      Append(Literal(text, Default));
    }

    /** `<<< { accessor }`: a substitution with the default preference. */
    method AppendSubstitution(a: Accessor)
      modifies this
      ensures fragments == old(fragments) + [Substitution(a, Default)]
    {
      Append(Substitution(a, Default));
    }
  }

  /** The builder steps declared for `StringDiagnostic` give its template. */
  method BuildStringDiagnosticDescription() returns (description: seq<Fragment>)
    ensures description == StringDiagnosticID.description
  {
    var b := new DescriptionBuilder();
    b.AppendSubstitution(Str);
    description := b.fragments;
  }

  /** The builder steps declared for `FooDiag` give its template: the four
      plain `<<<` steps produce `Default` fragments in the order declared, and
      the two explicit fragments keep their `High` and `Low` preferences. */
  method BuildFooDiagDescription() returns (description: seq<Fragment>)
    ensures |description| == 6
    ensures description[0] == Literal("literal", Default)
    ensures forall i :: 1 <= i < 4 ==> description[i].Substitution? && description[i].preference == Default
    ensures description[1].accessor == ArrJoined && description[2].accessor == Int && description[3].accessor == Str
    ensures description[4] == Literal("bar", High)
    ensures description[5] == Substitution(Str, Low)
    ensures description == FooDiagID.description
  {
    var b := new DescriptionBuilder();
    b.AppendLiteral("literal");
    b.AppendSubstitution(ArrJoined);
    b.AppendSubstitution(Int);
    b.AppendSubstitution(Str);
    b.Append(Literal("bar", High));
    b.Append(Substitution(Str, Low));
    description := b.fragments;
  }
}
