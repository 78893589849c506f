/** Layered instructions flattened to XML, and a reader that recovers exactly the layers:
    nothing a caller puts into a key or a text can be taken for markup. Escaping uses the
    five predefined entities of section 4.6 of XML 1.0. */
module Instructions {
  import opened Prelude

  datatype Fragment = Fragment(key: string, text: string)

  function Layer(key: string, text: Option<string>): seq<Fragment> {
    if text.Some? then [Fragment(key, text.value)] else []
  }

  datatype CompiledInstructions = CompiledInstructions(
    core: string, agent: Option<string>, run: Option<string>, features: seq<Fragment>)
  {
    /** The layers in rendering order. */
    function Fragments(): seq<Fragment> {
      [Fragment("core", core)] + Layer("agent", agent) + Layer("run", run) + features
    }
  }

  // ---------- Rendering ----------

  function EscapeChar(c: char): string {
    match c
    case '&' => "&amp;"
    case '<' => "&lt;"
    case '>' => "&gt;"
    case '\"' => "&quot;"
    case '\'' => "&apos;"
    case _ => [c]
  }

  function Escape(value: string): string {
    if value == "" then "" else EscapeChar(value[0]) + Escape(value[1..])
  }

  const OPEN := "<instructions>"
  const CLOSE := "</instructions>"
  const FRAGMENT_OPEN := "<fragment key=\""
  const FRAGMENT_MIDDLE := "\">"
  const FRAGMENT_CLOSE := "</fragment>"

  function RenderFragment(f: Fragment): string {
    FRAGMENT_OPEN + Escape(f.key) + FRAGMENT_MIDDLE + Escape(f.text) + FRAGMENT_CLOSE
  }

  function RenderFragments(fragments: seq<Fragment>): string {
    if fragments == [] then "" else RenderFragment(fragments[0]) + RenderFragments(fragments[1..])
  }

  function Render(fragments: seq<Fragment>): string {
    OPEN + RenderFragments(fragments) + CLOSE
  }

  // ---------- Reading back ----------

  /** One entity reference at the front of the input, with what follows it. */
  function ReadEntity(input: string): Option<(char, string)> {
    if "&amp;" <= input then Some(('&', input[5..]))
    else if "&lt;" <= input then Some(('<', input[4..]))
    else if "&gt;" <= input then Some(('>', input[4..]))
    else if "&quot;" <= input then Some(('\"', input[6..]))
    else if "&apos;" <= input then Some(('\'', input[6..]))
    else None
  }

  /** Character data up to, and not including, the stop character. */
  function ReadValue(input: string, stop: char): (r: Option<(string, string)>)
    ensures r.Some? ==> |r.value.1| <= |input|
    decreases |input|
  {
    if input == "" then None
    else if input[0] == stop then Some(("", input))
    else
      var first := if input[0] == '&' then ReadEntity(input) else Some((input[0], input[1..]));
      if first.None? then None
      else
        var rest := ReadValue(first.value.1, stop);
        if rest.None? then None else Some(([first.value.0] + rest.value.0, rest.value.1))
  }

  function Skip(input: string, prefix: string): (r: Option<string>)
    ensures r.Some? ==> input == prefix + r.value
  {
    if prefix <= input then Some(input[|prefix|..]) else None
  }

  /** One fragment element at the front of the input. */
  function ReadFragment(input: string): (r: Option<(Fragment, string)>)
    ensures r.Some? ==> |r.value.1| < |input|
  {
    var begun := Skip(input, FRAGMENT_OPEN);
    if begun.None? then None
    else
      var key := ReadValue(begun.value, '\"');
      if key.None? then None
      else
        var middle := Skip(key.value.1, FRAGMENT_MIDDLE);
        if middle.None? then None
        else
          var text := ReadValue(middle.value, '<');
          if text.None? then None
          else
            var closed := Skip(text.value.1, FRAGMENT_CLOSE);
            if closed.None? then None else Some((Fragment(key.value.0, text.value.0), closed.value))
  }

  function ReadFragments(input: string): Option<seq<Fragment>>
    decreases |input|
  {
    if input == CLOSE then Some([])
    else
      var first := ReadFragment(input);
      if first.None? then None
      else
        var rest := ReadFragments(first.value.1);
        if rest.None? then None else Some([first.value.0] + rest.value)
  }

  function Parse(xml: string): Option<seq<Fragment>> {
    var body := Skip(xml, OPEN);
    if body.None? then None else ReadFragments(body.value)
  }

  // ---------- The reader recovers what was rendered ----------

  lemma ReadEscapedChar(c: char, rest: string)
    ensures var input := EscapeChar(c) + rest;
      && (input[0] == '&' ==> ReadEntity(input) == Some((c, rest)))
      && (input[0] != '&' ==> input[0] == c && input[1..] == rest)
      && input[0] != '<' && input[0] != '\"'
  {
    var input := EscapeChar(c) + rest;
    if c == '&' {
      assert input[5..] == rest;
    } else if c == '<' || c == '>' {
      assert input[1] != 'a';
      assert input[4..] == rest;
    } else if c == '\"' {
      assert input[1] == 'q';
      assert input[6..] == rest;
    } else if c == '\'' {
      assert input[2] == 'p';
      assert input[6..] == rest;
    }
  }

  lemma {:induction false} ReadEscaped(value: string, stop: char, rest: string)
    requires stop == '<' || stop == '\"'
    requires rest != "" && rest[0] == stop
    ensures ReadValue(Escape(value) + rest, stop) == Some((value, rest))
    decreases |value|
  {
    if value == "" {
      assert Escape(value) + rest == rest;
    } else {
      var more := Escape(value[1..]) + rest;
      assert Escape(value) + rest == EscapeChar(value[0]) + more;
      ReadEscapedChar(value[0], more);
      ReadEscaped(value[1..], stop, rest);
      assert [value[0]] + value[1..] == value;
    }
  }

  lemma RegroupFragment(before: string, a: string, b: string, c: string, d: string, e: string)
    ensures before + (a + b + c + d + e) == before + a + b + c + d + e
    ensures (a + b + c + d + e) + before == a + (b + (c + (d + (e + before))))
  {
  }

  lemma SkipPrefix(prefix: string, rest: string)
    ensures Skip(prefix + rest, prefix) == Some(rest)
  {
  }

  lemma ReadRenderedFragment(f: Fragment, rest: string)
    ensures ReadFragment(RenderFragment(f) + rest) == Some((f, rest))
  {
    var closing := FRAGMENT_CLOSE + rest;
    var middle := FRAGMENT_MIDDLE + (Escape(f.text) + closing);
    RegroupFragment(rest, FRAGMENT_OPEN, Escape(f.key), FRAGMENT_MIDDLE, Escape(f.text), FRAGMENT_CLOSE);
    SkipPrefix(FRAGMENT_OPEN, Escape(f.key) + middle);
    ReadEscaped(f.key, '\"', middle);
    SkipPrefix(FRAGMENT_MIDDLE, Escape(f.text) + closing);
    ReadEscaped(f.text, '<', closing);
    SkipPrefix(FRAGMENT_CLOSE, rest);
  }

  /** A fragment element cannot be mistaken for the closing tag. */
  lemma FragmentIsNotClose(f: Fragment, rest: string)
    ensures RenderFragment(f) + rest != CLOSE
  {
    assert FRAGMENT_OPEN[1] == 'f' && CLOSE[1] == '/';
    assert RenderFragment(f)[1] == FRAGMENT_OPEN[1];
    assert (RenderFragment(f) + rest)[1] == RenderFragment(f)[1];
  }

  lemma ReadFragmentsStep(input: string, f: Fragment, rest: string, more: seq<Fragment>)
    requires input != CLOSE && ReadFragment(input) == Some((f, rest))
    requires ReadFragments(rest) == Some(more)
    ensures ReadFragments(input) == Some([f] + more)
  {
  }

  lemma RenderFragmentsStep(fragments: seq<Fragment>)
    requires fragments != []
    ensures RenderFragments(fragments) + CLOSE ==
            RenderFragment(fragments[0]) + (RenderFragments(fragments[1..]) + CLOSE)
  {
    Regroup(RenderFragment(fragments[0]), RenderFragments(fragments[1..]), CLOSE);
  }

  lemma {:induction false} ReadRenderedFragments(fragments: seq<Fragment>)
    ensures ReadFragments(RenderFragments(fragments) + CLOSE) == Some(fragments)
    decreases |fragments|
  {
    if fragments == [] {
      assert "" + CLOSE == CLOSE;
    } else {
      var rest := RenderFragments(fragments[1..]) + CLOSE;
      RenderFragmentsStep(fragments);
      FragmentIsNotClose(fragments[0], rest);
      ReadRenderedFragment(fragments[0], rest);
      ReadRenderedFragments(fragments[1..]);
      ReadFragmentsStep(RenderFragment(fragments[0]) + rest, fragments[0], rest, fragments[1..]);
      assert [fragments[0]] + fragments[1..] == fragments;
    }
  }

  /** For all keys and texts, however full of markup, reading recovers the fragments. */
  lemma ParseOfRender(fragments: seq<Fragment>)
    ensures Parse(Render(fragments)) == Some(fragments)
  {
    Regroup(OPEN, RenderFragments(fragments), CLOSE);
    SkipPrefix(OPEN, RenderFragments(fragments) + CLOSE);
    ReadRenderedFragments(fragments);
  }

  /** Two instruction stacks render alike only if their layers are alike. */
  lemma RenderIsUnambiguous(a: CompiledInstructions, b: CompiledInstructions)
    requires Render(a.Fragments()) == Render(b.Fragments())
    ensures a.Fragments() == b.Fragments()
  {
    ParseOfRender(a.Fragments());
    ParseOfRender(b.Fragments());
  }

  /** Escaped values contain no delimiter at all. */
  lemma {:induction false} EscapedValuesAreInert(value: string)
    ensures forall c :: c in Escape(value) ==> c != '<' && c != '>' && c != '\"' && c != '\''
    decreases |value|
  {
    if value != "" {
      EscapedValuesAreInert(value[1..]);
      assert forall c :: c in EscapeChar(value[0]) ==> c != '<' && c != '>' && c != '\"' && c != '\'';
    }
  }

  lemma TakeOneMore(done: seq<Fragment>, features: seq<Fragment>, i: nat)
    requires i < |features|
    ensures done + features[..i + 1] == done + features[..i] + [features[i]]
  {
  }

  // ---------- Rendering in place ----------

  class XmlWriter {
    var output: string

    constructor (start: string)
      ensures output == start
    {
      output := start;
    }

    method Push(text: string)
      modifies this
      ensures output == old(output) + text
    {
      output := output + text;
    }

    method EscapeXml(value: string)
      modifies this
      ensures output == old(output) + Escape(value)
    {
      for i := 0 to |value|
        invariant output + Escape(value[i..]) == old(output) + Escape(value)
      {
        Regroup(output, EscapeChar(value[i]), Escape(value[i + 1..]));
        assert value[i..][1..] == value[i + 1..];
        EscapeOne(value[i]);
      }
    }

    method EscapeOne(c: char)
      modifies this
      ensures output == old(output) + EscapeChar(c)
    {
      match c {
        case '&' => Push("&amp;");
        case '<' => Push("&lt;");
        case '>' => Push("&gt;");
        case '\"' => Push("&quot;");
        case '\'' => Push("&apos;");
        case _ => Push([c]);
      }
    }

    method RenderInstruction(key: string, text: string)
      modifies this
      ensures output == old(output) + RenderFragment(Fragment(key, text))
    {
      RegroupFragment(output, FRAGMENT_OPEN, Escape(key), FRAGMENT_MIDDLE, Escape(text), FRAGMENT_CLOSE);
      Push(FRAGMENT_OPEN);
      EscapeXml(key);
      Push(FRAGMENT_MIDDLE);
      EscapeXml(text);
      Push(FRAGMENT_CLOSE);
    }

    /** One more layer after the ones already written. */
    method RenderNext(f: Fragment, start: string, ghost done: seq<Fragment>)
      requires output == start + RenderFragments(done)
      modifies this
      ensures output == start + RenderFragments(done + [f])
    {
      RenderFragmentsAppend(done, f);
      Regroup(start, RenderFragments(done), RenderFragment(f));
      RenderInstruction(f.key, f.text);
    }

    method RenderLayer(key: string, text: Option<string>, start: string, ghost done: seq<Fragment>)
      requires output == start + RenderFragments(done)
      modifies this
      ensures output == start + RenderFragments(done + Layer(key, text))
    {
      if text.Some? {
        RenderNext(Fragment(key, text.value), start, done);
      } else {
        assert done + [] == done;
      }
    }

    method RenderFeatures(features: seq<Fragment>, start: string, ghost done: seq<Fragment>)
      requires output == start + RenderFragments(done)
      modifies this
      ensures output == start + RenderFragments(done + features)
    {
      assert done + features[..0] == done;
      for i := 0 to |features|
        invariant output == start + RenderFragments(done + features[..i])
      {
        TakeOneMore(done, features, i);
        RenderNext(features[i], start, done + features[..i]);
      }
      assert features[..|features|] == features;
    }
  }

  lemma {:induction false} RenderFragmentsOfConcat(a: seq<Fragment>, b: seq<Fragment>)
    ensures RenderFragments(a + b) == RenderFragments(a) + RenderFragments(b)
    decreases |a|
  {
    if a == [] {
      assert a + b == b;
    } else {
      assert (a + b)[1..] == a[1..] + b;
      RenderFragmentsOfConcat(a[1..], b);
    }
  }

  lemma RenderFragmentsAppend(a: seq<Fragment>, f: Fragment)
    ensures RenderFragments(a + [f]) == RenderFragments(a) + RenderFragment(f)
  {
    RenderFragmentsOfConcat(a, [f]);
    assert [f][1..] == [];
    assert RenderFragments([f]) == RenderFragment(f) + "";
  }

  method RenderXml(instructions: CompiledInstructions) returns (xml: string)
    ensures xml == Render(instructions.Fragments())
    ensures Parse(xml) == Some(instructions.Fragments())
  {
    var start := OPEN;
    var writer := new XmlWriter(start);
    assert start + RenderFragments([]) == start;
    ghost var core, agent, run :=
      [Fragment("core", instructions.core)], Layer("agent", instructions.agent), Layer("run", instructions.run);
    writer.RenderNext(Fragment("core", instructions.core), start, []);
    assert [] + core == core;
    writer.RenderLayer("agent", instructions.agent, start, core);
    writer.RenderLayer("run", instructions.run, start, core + agent);
    writer.RenderFeatures(instructions.features, start, core + agent + run);
    writer.Push(CLOSE);
    ParseOfRender(instructions.Fragments());
    return writer.output;
  }
}
