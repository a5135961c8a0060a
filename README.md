# Structured diagnostics engine

This is a Dafny model of the structured-diagnostics engine in the `Basic` module of the Swift Package Manager. The engine's own source is not part of this model. Its behaviour is taken from its test suite, `Tests/BasicTests/DiagnosticsEngineTests.swift`. That file declares two diagnostic kinds and checks what the engine does with them.

- **Description templates** (`Diagnostics`). A template is an ordered list of fragments. A fragment is a literal text or a substitution that reads one payload field. Each fragment carries a preference: `default`, `low` or `high`. Rendering puts the fragments' texts in declaration order with one space between each two. An array field renders as its elements joined with `", "`. An integer renders in decimal.
- **Diagnostic kinds** (`Diagnostics`). A `DiagnosticID` has a name, a default behaviour (note, warning or error) and a template. `StringDiagnosticID` and `FooDiagID` are the two kinds the tests declare. Payloads form one datatype with one variant per kind. `IdOf` gives each payload its kind, and the kind's template is proved to read only fields that payload has. This takes the place of the Swift runtime downcast. `DescriptionBuilder` models the `<<<` builder that declares templates.
- **The engine** (`Engine`). `DiagnosticsEngine` is a class holding an append-only `diagnostics` sequence. `Emit` builds a diagnostic from a payload and a location and appends it. It then calls every registered handler once with that diagnostic, in registration order. `Merge` appends another engine's diagnostics. It calls no handler and leaves the other engine unchanged. Handlers are registered at construction and modelled by their number. Each handler call is recorded in `calls`, and `HandlerLog(h)` is the sequence of diagnostics that handler `h` received.
- **Scenarios** (`Scenarios`). The three test cases are written as methods. Their postconditions are the values the tests assert.

`Text` holds the string helpers: joining with a separator, and decimal text of an integer together with its parser.

## Model

| member | source | states |
|---|---|---|
| Text.Join | Tests/BasicTests/DiagnosticsEngineTests.swift:38 | Joining no parts gives the empty string, and a joined string starts with its first part |
| Text.JoinSnoc | Tests/BasicTests/DiagnosticsEngineTests.swift:38 | Joining one more part adds exactly one separator and then that part |
| Text.JoinLength | Tests/BasicTests/DiagnosticsEngineTests.swift:38 | A joined string's length is every part plus one separator per gap: nothing before the first part, nothing after the last |
| Text.JoinPartAt | Tests/BasicTests/DiagnosticsEngineTests.swift:38 | Part i appears verbatim at its offset in the joined string |
| Text.JoinSeparatorAt | Tests/BasicTests/DiagnosticsEngineTests.swift:38 | Exactly one separator lies between part i and part i + 1 |
| Text.IntToString | Tests/BasicTests/DiagnosticsEngineTests.swift:39 | The decimal text of an integer is non-empty, starts with a minus sign exactly when the integer is negative, and is digits everywhere else |
| Text.NatToString | Tests/BasicTests/DiagnosticsEngineTests.swift:39 | Decimal text of a natural number is non-empty, all digits, and has no leading zero |
| Text.IntToStringRoundTrip | Tests/BasicTests/DiagnosticsEngineTests.swift:39 | The decimal text of any integer (minus sign when negative) parses back to that integer |
| Diagnostics.PreferenceName | Tests/BasicTests/DiagnosticsEngineTests.swift:81-83 | Each preference prints as its own name: `default`, `low` or `high`, and no two share one |
| Diagnostics.Texts | Tests/BasicTests/DiagnosticsEngineTests.swift:36-43 | There is one text per fragment, in declaration order; a literal gives its text and a substitution gives the field it reads |
| Diagnostics.Render | Tests/BasicTests/DiagnosticsEngineTests.swift:70 | A rendered description starts with its first fragment's text, and a one-fragment template renders to that text alone |
| Diagnostics.RenderFragmentAt | Tests/BasicTests/DiagnosticsEngineTests.swift:36-43 | In the rendered description, each fragment's text appears verbatim at its offset |
| Diagnostics.RenderSpaceAt | Tests/BasicTests/DiagnosticsEngineTests.swift:70 | Consecutive fragment texts are separated by exactly one space |
| Diagnostics.RenderLength | Tests/BasicTests/DiagnosticsEngineTests.swift:70 | The rendered description has no leading or trailing space: its length is the texts plus one space per gap |
| Diagnostics.RenderSnoc | Tests/BasicTests/DiagnosticsEngineTests.swift:36-43 | Declaring one more fragment appends one space and that fragment's text to the rendering |
| Diagnostics.IdOf | Tests/BasicTests/DiagnosticsEngineTests.swift:17-23 | Each payload variant has its own kind, named "org.swift.diags.tests.cycle" or "org.swift.diags.string-diagnostic", and that kind's template reads only fields the payload has, so no downcast is needed |
| Diagnostics.FooDiagDescription | Tests/BasicTests/DiagnosticsEngineTests.swift:33-44 | Any `FooDiag` renders as "literal", the joined array, the integer, the string, "bar" and the string again, one space apart |
| Diagnostics.StringDiagnosticDescription | Tests/BasicTests/DiagnosticsEngineTests.swift:17-23 | Any `StringDiagnostic` renders to exactly its string |
| Diagnostics.MakeDiagnostic | Tests/BasicTests/DiagnosticsEngineTests.swift:62-75 | An emitted diagnostic has the payload's kind, the location given, the kind's default behaviour, and the kind's template rendered against the payload |
| Diagnostics.AnnotatedSnoc | Tests/BasicTests/DiagnosticsEngineTests.swift:77-85 | Walking one more fragment appends its text and then its preference's name |
| Diagnostics.DescribeWithPreferences | Tests/BasicTests/DiagnosticsEngineTests.swift:77-85 | The loop over the template produces each fragment's text followed by its preference's name, in order |
| Diagnostics.FooDiagAnnotated | Tests/BasicTests/DiagnosticsEngineTests.swift:77-86 | For any `FooDiag` payload, the annotated walk gives each field's text tagged with its fragment's preference |
| Diagnostics.DescriptionBuilder.constructor | Tests/BasicTests/DiagnosticsEngineTests.swift:20 | A new builder holds no fragments |
| Diagnostics.DescriptionBuilder.Append | Tests/BasicTests/DiagnosticsEngineTests.swift:41-42 | `<<<` with an explicit fragment appends it unchanged, keeping its preference |
| Diagnostics.DescriptionBuilder.AppendLiteral | Tests/BasicTests/DiagnosticsEngineTests.swift:37 | `<<<` with a string appends a literal with the default preference |
| Diagnostics.DescriptionBuilder.AppendSubstitution | Tests/BasicTests/DiagnosticsEngineTests.swift:38-40 | `<<<` with an accessor appends a substitution with the default preference |
| Diagnostics.BuildStringDiagnosticDescription | Tests/BasicTests/DiagnosticsEngineTests.swift:20-22 | The declared builder steps for `StringDiagnostic` give its template |
| Diagnostics.BuildFooDiagDescription | Tests/BasicTests/DiagnosticsEngineTests.swift:36-43 | The declared builder steps for `FooDiag` give its six-fragment template in declared order: the plain `<<<` steps give `default` literal "literal" and substitutions of the joined array, the integer and the string; the explicit fragments keep their preferences, "bar" `high` and the last string substitution `low` |
| Engine.HandledBy | Tests/BasicTests/DiagnosticsEngineTests.swift:115-117 | A handler's log is no longer than the calls made, and every diagnostic in it was passed to that handler by some call |
| Engine.HandledByNone | Tests/BasicTests/DiagnosticsEngineTests.swift:115-117 | A handler that no call went to has an empty log |
| Engine.HandledByAppend | Tests/BasicTests/DiagnosticsEngineTests.swift:115-117 | A handler's log over two runs of calls is its log over the first run followed by its log over the second |
| Engine.HandledByFanout | Tests/BasicTests/DiagnosticsEngineTests.swift:113-128 | In one emission each registered handler receives the new diagnostic exactly once, and an unregistered one receives nothing |
| Engine.DiagnosticsEngine.DefaultBehaviors | Tests/BasicTests/DiagnosticsEngineTests.swift:71-75 | Every collected diagnostic, and every one a handler received, carries its payload's kind and that kind's default behaviour |
| Engine.DiagnosticsEngine.UnregisteredHandlerLog | Tests/BasicTests/DiagnosticsEngineTests.swift:119 | A handler number beyond those registered at construction has received nothing |
| Engine.DiagnosticsEngine.constructor | Tests/BasicTests/DiagnosticsEngineTests.swift:119 | A new engine holds no diagnostics, has made no handler calls, and keeps its handler count |
| Engine.DiagnosticsEngine.Emit | Tests/BasicTests/DiagnosticsEngineTests.swift:121-126 | Emitting appends exactly one well-formed diagnostic, then calls handlers 0 to n-1 in order with it, so each handler's log grows by exactly that diagnostic |
| Engine.DiagnosticsEngine.Merge | Tests/BasicTests/DiagnosticsEngineTests.swift:108-110 | Merging appends the other engine's diagnostics in their order, calls no handler, and leaves the other engine unchanged |
| Scenarios.FooFieldTexts | Tests/BasicTests/DiagnosticsEngineTests.swift:63 | The test payload's array joins to "foo, bar" and its integer renders as "2" |
| Scenarios.FooRendering | Tests/BasicTests/DiagnosticsEngineTests.swift:70 | The test payload renders to "literal foo, bar 2 str bar str" |
| Scenarios.FooAnnotation | Tests/BasicTests/DiagnosticsEngineTests.swift:86 | The annotated walk of the test payload is "literaldefaultfoo, bardefault2defaultstrdefaultbarhighstrlow" |
| Scenarios.Basics | Tests/BasicTests/DiagnosticsEngineTests.swift:60-87 | One emit on a fresh engine leaves one diagnostic with location "foo loc", the kind's name, behaviour `error` and the expected description |
| Scenarios.MergeCounts | Tests/BasicTests/DiagnosticsEngineTests.swift:89-111 | For any payload, merging an engine of two emissions into an engine of one gives 3, and the merged-from engine still holds 2 |
| Scenarios.Merging | Tests/BasicTests/DiagnosticsEngineTests.swift:89-111 | Merging an engine of 2 into an engine of 1 gives 3, and the merged-from engine still holds 2 |
| Scenarios.EmittedDescriptions | Tests/BasicTests/DiagnosticsEngineTests.swift:132-134 | The three diagnostics the handler test emits render to "literal foo, bar 2 str bar str", "diag 2" and "end" |
| Scenarios.HandleInOrder | Tests/BasicTests/DiagnosticsEngineTests.swift:113-128 | A one-handler engine given three payloads hands that handler exactly the diagnostics it collects, in emission order |
| Scenarios.Handlers | Tests/BasicTests/DiagnosticsEngineTests.swift:113-135 | After three emits of two kinds, the handler log is exactly the engine's collection: three diagnostics in emission order, all at "location", each rendered by its own kind |

## Left out

- The XCTest harness, `XCTAssertEqual` and the `allTests` table are test infrastructure, so they are not modelled.
- The `Basic` module's engine source is not part of this model. Emit and merge follow what the tests assert. The tests do not observe handlers during a merge; the model takes `Merge` to call no handler, because the merged diagnostics were already delivered by the engine they came from.
- Handlers are not closures here. Each handler is its position in registration order, and its effect is a log entry. Arbitrary handler side effects are not modelled.
- Payload polymorphism (`DiagnosticData`) is modelled as one closed datatype with the two kinds the tests declare. A new kind means a new variant.
- Accessor closures are replaced by a fixed set of field accessors (`ArrJoined`, `Int`, `Str`). The runtime downcast becomes a proved fit between each kind's template and its payload.
- Locations are modelled as their description string only.
- Preferences are stored and exposed, but nothing ranks or deduplicates by them. No shown code gives them any other meaning.
- Kind names are plain data. Process-wide uniqueness is not enforced, because the shown code keeps no registry.
- The description is rendered eagerly when a diagnostic is made. Lazy rendering would give the same text.
- Text.IntToString: Swift's `Int` is 64-bit, but the model renders unbounded integers. Its decimal form is the same for every value in range.
- Strings are sequences of characters. Swift's grapheme-cluster semantics do not matter to these operations.
- Concurrency: the engine is used from one owner and is not modelled under concurrent use.
