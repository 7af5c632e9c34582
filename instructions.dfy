/**
 * Agent instructions: fixed instructions, instruction providers, and the
 * runtime's session-state injection, stated as the behaviour the examples
 * rely on. A template is read as a sequence of pieces: plain text, a
 * `{name}` slot that is filled from session state, and a `{{...}}` span that
 * is passed through with its braces.
 */
module Instructions {
  import opened Wrappers
  import opened Values

  datatype Piece = Text(s: string) | Slot(name: string) | Escaped(s: string)

  /** How a piece is written in the template. */
  function Written(p: Piece): string {
    match p
    case Text(s) => s
    case Slot(n) => "{" + n + "}"
    case Escaped(s) => "{{" + s + "}}"
  }

  /** The template text a sequence of pieces is read from. */
  function Source(ps: seq<Piece>): string {
    if ps == [] then "" else Written(ps[0]) + Source(ps[1..])
  }

  /** What a piece becomes once injected; a slot's key must be bound. */
  function Rendered(p: Piece, kv: State): string
    requires p.Slot? ==> p.name in kv
  {
    match p
    case Text(s) => s
    case Slot(n) => Show(kv[n])
    case Escaped(s) => "{{" + s + "}}"
  }

  predicate HasSlot(ps: seq<Piece>) {
    exists i :: 0 <= i < |ps| && ps[i].Slot?
  }

  /** Every slot of the template names a key of the state. */
  predicate SlotsBound(ps: seq<Piece>, kv: State) {
    forall i :: 0 <= i < |ps| && ps[i].Slot? ==> ps[i].name in kv
  }

  /** The pieces with each bound slot replaced by the value it names, as %v prints it. */
  function Filled(ps: seq<Piece>, kv: State): (r: seq<Piece>)
    ensures |r| == |ps|
  {
    if ps == [] then []
    else (if ps[0].Slot? && ps[0].name in kv then [Text(Show(kv[ps[0].name]))] else [ps[0]]) + Filled(ps[1..], kv)
  }

  /**
   * InjectSessionState: fills every slot from the state and keeps all other
   * text, escaped spans included, as written; a slot naming a missing key
   * is an error.
   */
  function Inject(ps: seq<Piece>, kv: State): Result<string> {
    if ps == [] then Ok("")
    else if ps[0].Slot? && ps[0].name !in kv then Err("context variable not found: " + ps[0].name)
    else
      var rest := Inject(ps[1..], kv);
      if rest.Err? then rest else Ok(Rendered(ps[0], kv) + rest.value)
  }

  /**
   * Injection succeeds exactly when every slot is bound, and then yields the
   * template with its slots filled in and nothing else changed.
   */
  lemma {:induction false} InjectFills(ps: seq<Piece>, kv: State)
    ensures Inject(ps, kv).Ok? <==> SlotsBound(ps, kv)
    ensures Inject(ps, kv).Ok? ==> Inject(ps, kv).value == Source(Filled(ps, kv))
  {
    if ps != [] {
      InjectFills(ps[1..], kv);
      assert Filled(ps, kv)[1..] == Filled(ps[1..], kv);
      if SlotsBound(ps[1..], kv) && !(ps[0].Slot? && ps[0].name !in kv) {
        forall i | 0 <= i < |ps| && ps[i].Slot?
          ensures ps[i].name in kv
        {
          if i > 0 {
            assert ps[1..][i - 1] == ps[i];
          }
        }
      }
      if SlotsBound(ps, kv) {
        forall i | 0 <= i < |ps[1..]| && ps[1..][i].Slot?
          ensures ps[1..][i].name in kv
        {
          assert ps[1..][i] == ps[i + 1];
        }
      }
    }
  }

  /** A template without slots reaches the model exactly as written, whatever the state. */
  lemma {:induction false} NoSlotsUnchanged(ps: seq<Piece>, kv: State)
    requires !HasSlot(ps)
    ensures Inject(ps, kv) == Ok(Source(ps))
  {
    if ps != [] {
      NoSlotsUnchanged(ps[1..], kv);
    }
  }

  /** Reading and injecting a three-piece template, piece by piece. */
  lemma SourceOfThree(a: Piece, b: Piece, c: Piece)
    ensures Source([a, b, c]) == Written(a) + Written(b) + Written(c)
  {
    var ps := [a, b, c];
    assert ps[1..] == [b, c] && ps[2..] == [c] && [c][1..] == [];
    assert Source([c][1..]) == "";
    assert Source([c]) == Written(c) + Source([c][1..]);
    assert Source([c]) == Written(c);
    assert Source(ps[1..]) == Written(b) + Written(c);
    assert Source(ps) == Written(a) + (Written(b) + Written(c));
  }

  lemma InjectOfThree(a: Piece, b: Piece, c: Piece, kv: State)
    requires a.Slot? ==> a.name in kv
    requires b.Slot? ==> b.name in kv
    requires c.Slot? ==> c.name in kv
    ensures Inject([a, b, c], kv) == Ok(Rendered(a, kv) + Rendered(b, kv) + Rendered(c, kv))
  {
    var ps := [a, b, c];
    assert ps[1..] == [b, c] && ps[2..] == [c] && [c][1..] == [];
    var rc := Rendered(c, kv);
    assert Inject([c][1..], kv) == Ok("");
    assert Inject([c], kv) == Ok(rc + "");
    assert rc + "" == rc;
    assert Inject(ps[1..], kv) == Ok(Rendered(b, kv) + Rendered(c, kv));
    assert Inject(ps, kv) == Ok(Rendered(a, kv) + (Rendered(b, kv) + Rendered(c, kv)));
    assert Rendered(a, kv) + (Rendered(b, kv) + Rendered(c, kv)) == Rendered(a, kv) + Rendered(b, kv) + Rendered(c, kv);
  }

  lemma SourceOfFive(a: Piece, b: Piece, c: Piece, d: Piece, e: Piece)
    ensures Source([a, b, c, d, e]) == Written(a) + Written(b) + Written(c) + Written(d) + Written(e)
  {
    var ps := [a, b, c, d, e];
    assert ps[2..] == [c, d, e] && ps[1..] == [b, c, d, e];
    SourceOfThree(c, d, e);
    assert Source(ps[1..]) == Written(b) + (Written(c) + Written(d) + Written(e));
    assert Source(ps) == Written(a) + (Written(b) + (Written(c) + Written(d) + Written(e)));
  }

  lemma InjectOfFive(a: Piece, b: Piece, c: Piece, d: Piece, e: Piece, kv: State)
    requires a.Slot? ==> a.name in kv
    requires b.Slot? ==> b.name in kv
    requires c.Slot? ==> c.name in kv
    requires d.Slot? ==> d.name in kv
    requires e.Slot? ==> e.name in kv
    ensures Inject([a, b, c, d, e], kv) == Ok(Rendered(a, kv) + Rendered(b, kv) + Rendered(c, kv) + Rendered(d, kv) + Rendered(e, kv))
  {
    var ps := [a, b, c, d, e];
    assert ps[2..] == [c, d, e] && ps[1..] == [b, c, d, e];
    InjectOfThree(c, d, e, kv);
    assert Inject(ps[1..], kv) == Ok(Rendered(b, kv) + (Rendered(c, kv) + Rendered(d, kv) + Rendered(e, kv)));
    var ra, rb, rcde := Rendered(a, kv), Rendered(b, kv), Rendered(c, kv) + Rendered(d, kv) + Rendered(e, kv);
    assert Inject(ps, kv) == Ok(ra + (rb + rcde));
    assert ra + (rb + rcde) == ra + rb + rcde;
    assert ra + rb + rcde == Rendered(a, kv) + Rendered(b, kv) + Rendered(c, kv) + Rendered(d, kv) + Rendered(e, kv);
  }

  // ---------------------------------------------------------------------
  // The instruction-provider example
  // ---------------------------------------------------------------------

  const StaticText := "This is an instruction with " + "{{literal_braces}}" + " that will not be replaced."
  const StaticPieces := [Text("This is an instruction with "), Escaped("literal_braces"), Text(" that will not be replaced.")]
  const DynamicTemplate := "This is a " + "{adjective}" + " instruction with " + "{{literal_braces}}" + "."

  /** The dynamic provider's template, piece by piece. */
  const DynamicPieces := [Text("This is a "), Slot("adjective"), Text(" instruction with "), Escaped("literal_braces"), Text(".")]

  /** staticInstructionProvider: a provider's output is not injected, so it reaches the model as written. */
  function StaticProvider(kv: State): Result<string> {
    Ok(StaticText)
  }

  /**
   * The static text keeps its escaped braces whatever the state: it is the
   * text of a template without slots, which injection would leave unchanged.
   */
  lemma StaticKeptVerbatim(kv: State)
    ensures StaticProvider(kv) == Ok(Source(StaticPieces))
    ensures Inject(StaticPieces, kv) == StaticProvider(kv)
  {
    SourceOfThree(Text("This is an instruction with "), Escaped("literal_braces"), Text(" that will not be replaced."));
    assert Written(Escaped("literal_braces")) == "{{literal_braces}}";
    assert !HasSlot(StaticPieces);
    NoSlotsUnchanged(StaticPieces, kv);
  }

  /** dynamicInstructionProvider: injects the session state into its template. */
  function DynamicProvider(kv: State): Result<string> {
    Inject(DynamicPieces, kv)
  }

  /** The pieces are a faithful reading of the template text. */
  lemma DynamicPiecesRead()
    ensures Source(DynamicPieces) == DynamicTemplate
  {
    SourceOfFive(Text("This is a "), Slot("adjective"), Text(" instruction with "), Escaped("literal_braces"), Text("."));
    assert Written(Slot("adjective")) == "{adjective}";
    assert Written(Escaped("literal_braces")) == "{{literal_braces}}";
  }

  /** With the example's session state the slot is filled and the escaped braces survive. */
  lemma DynamicExample(kv: State)
    requires "adjective" in kv && kv["adjective"] == Str("dynamic")
    ensures DynamicProvider(kv) == Ok("This is a " + "dynamic" + " instruction with " + "{{literal_braces}}" + ".")
  {
    InjectOfFive(Text("This is a "), Slot("adjective"), Text(" instruction with "), Escaped("literal_braces"), Text("."), kv);
    assert Rendered(Escaped("literal_braces"), kv) == "{{literal_braces}}";
  }

  /** Without the adjective in state the dynamic provider fails. */
  lemma DynamicNeedsAdjective(kv: State)
    requires "adjective" !in kv
    ensures DynamicProvider(kv).Err?
  {
    InjectFills(DynamicPieces, kv);
    assert DynamicPieces[1].Slot? && DynamicPieces[1].name == "adjective";
  }

  // ---------------------------------------------------------------------
  // The instruction-template example
  // ---------------------------------------------------------------------

  const TopicLead := "Write a short story about a cat, focusing on the theme: "
  const TopicPieces := [Text(TopicLead), Slot("topic"), Text(".")]

  /** The instruction the model receives for a session whose topic is a string. */
  lemma TopicFilled(kv: State, topic: string)
    requires "topic" in kv && kv["topic"] == Str(topic)
    ensures Inject(TopicPieces, kv) == Ok(TopicLead + topic + ".")
    ensures Source(TopicPieces) == TopicLead + "{topic}" + "."
  {
    InjectOfThree(Text(TopicLead), Slot("topic"), Text("."), kv);
    SourceOfThree(Text(TopicLead), Slot("topic"), Text("."));
    assert Written(Slot("topic")) == "{topic}";
  }
}
