/**
 * The tokenizer in the constructor of `Template` (src/master/template.ts).
 *
 * The constructor walks the strings of a tagged template character by
 * character with an 8-state machine, copying every character into `html`
 * unchanged.  After each string except the last, the interpolated value is
 * spliced into `html` according to the state the machine is in: a signal
 * becomes a `<$id>` placeholder, a plain value in a quoted attribute is
 * escaped for that quote, a function becomes an event-listener id, and a
 * value between tags becomes a node with an `<x :outlet="N">` marker.
 *
 * Values are seen through what the constructor asks of them: which class
 * they are an instance of and their string conversion `${value}`.
 * `randomId()` is a source of ids `ids: nat -> string` read at a counter.
 */
module MasterTemplate {
  import opened Text

  /** The machine's states. */
  datatype StateKind =
    | Outer
    | TagInner
    | TagName
    | TagClose
    | AttributeName
    | AttributeValueUnquoted
    | AttributeValueSingleQuoted
    | AttributeValueDoubleQuoted

  /** The `state` object; `None` is `null`. */
  datatype State = State(current: StateKind, tag: Option<string>, attributeName: Option<string>, attributeValue: Option<string>)

  const Initial := State(Outer, None, None, None)

  /** `field += char` in JavaScript, where a `null` field reads as the text "null". */
  function AppendChar(field: Option<string>, c: char): Option<string>
  {
    Some((if field.Some? then field.value else "null") + [c])
  }

  /** The state after one character (the `switch` of the inner loop). */
  function Step(s: State, c: char): State
  {
    match s.current
    case Outer =>
      if c == '<' then s.(current := TagName, tag := Some("")) else s
    case TagName =>
      if (s.tag == None || s.tag == Some("")) && c == '/' then s.(current := TagClose, tag := Some(""))
      else if c == '>' then s.(current := Outer, tag := None)
      else if c == ' ' then s.(current := TagInner)
      else s.(tag := AppendChar(s.tag, c))
    case TagInner =>
      if c == '>' then s.(current := Outer, tag := None)
      else if c == ' ' then s.(current := TagInner)
      else s.(current := AttributeName, attributeName := Some([c]))
    case AttributeName =>
      if c == '>' then s.(current := Outer, tag := None, attributeName := None)
      else if c == ' ' then s.(current := TagInner, attributeName := None)
      else if c == '=' then s.(current := AttributeValueUnquoted, attributeValue := Some(""))
      else s.(attributeName := AppendChar(s.attributeName, c))
    case AttributeValueUnquoted =>
      if c == '>' then s.(current := Outer, tag := None, attributeName := None, attributeValue := None)
      else if c == ' ' then s.(current := TagInner, attributeName := None, attributeValue := None)
      else if c == '"' then s.(current := AttributeValueDoubleQuoted, attributeValue := Some(""))
      else if c == '\'' then s.(current := AttributeValueSingleQuoted, attributeValue := Some(""))
      else s.(attributeValue := AppendChar(s.attributeValue, c))
    case AttributeValueSingleQuoted =>
      if c == '\'' then s.(current := TagInner, attributeName := None, attributeValue := None)
      else s.(attributeValue := AppendChar(s.attributeValue, c))
    case AttributeValueDoubleQuoted =>
      if c == '"' then s.(current := TagInner, attributeName := None, attributeValue := None)
      else s.(attributeValue := AppendChar(s.attributeValue, c))
    case TagClose =>
      if c == '>' then s.(current := Outer, tag := None)
      else s.(tag := AppendChar(s.tag, c))
  }

  /** The state after every character of `str`, from `s`. */
  function Scan(s: State, str: string): State
  {
    if |str| == 0 then s else Step(Scan(s, str[..|str| - 1]), str[|str| - 1])
  }

  /** A field is appended to only while it holds a string: the `"null"` text never arises. */
  ghost predicate FieldsSet(s: State)
  {
    && (s.current == TagName || s.current == TagClose ==> s.tag.Some?)
    && (s.current == AttributeName ==> s.attributeName.Some?)
    && (s.current in {AttributeValueUnquoted, AttributeValueSingleQuoted, AttributeValueDoubleQuoted} ==>
          s.attributeValue.Some?)
  }

  /** A step keeps the fields it appends to non-null. */
  lemma StepKeepsFieldsSet(s: State, c: char)
    requires FieldsSet(s)
    ensures FieldsSet(Step(s, c))
  {
  }

  /** Every string keeps the fields appended to non-null, so no text "null" ever enters the state. */
  lemma {:induction false} ScanKeepsFieldsSet(s: State, str: string)
    requires FieldsSet(s)
    ensures FieldsSet(Scan(s, str))
  {
    if |str| > 0 {
      ScanKeepsFieldsSet(s, str[..|str| - 1]);
      StepKeepsFieldsSet(Scan(s, str[..|str| - 1]), str[|str| - 1]);
    }
  }

  /** `<` between tags starts a tag name, and `/` as its first character makes it a closing tag. */
  lemma TagOpening(s: State)
    ensures s.current == Outer ==> Step(s, '<') == s.(current := TagName, tag := Some(""))
    ensures s.current == TagName && s.tag == Some("") ==> Step(s, '/') == s.(current := TagClose, tag := Some(""))
  {
  }

  /** `>` in any tag state outside quotes returns between tags with no tag name. */
  lemma TagEnd(s: State)
    requires s.current in {TagName, TagInner, AttributeName, AttributeValueUnquoted, TagClose}
    ensures Step(s, '>').current == Outer && Step(s, '>').tag == None
  {
  }

  /** `=` ends an attribute name with an empty unquoted value, and a quote then opens the matching quoted value. */
  lemma AttributeValueOpening(s: State)
    ensures s.current == AttributeName ==>
              Step(s, '=') == s.(current := AttributeValueUnquoted, attributeValue := Some(""))
    ensures s.current == AttributeValueUnquoted ==>
              && Step(s, '"') == s.(current := AttributeValueDoubleQuoted, attributeValue := Some(""))
              && Step(s, '\'') == s.(current := AttributeValueSingleQuoted, attributeValue := Some(""))
  {
  }

  /** Only the matching quote closes a quoted value, returning inside the tag with the attribute cleared. */
  lemma AttributeValueClosing(s: State, c: char)
    requires s.current == AttributeValueSingleQuoted || s.current == AttributeValueDoubleQuoted
    ensures var q := if s.current == AttributeValueSingleQuoted then '\'' else '"';
            Step(s, c) == if c == q then s.(current := TagInner, attributeName := None, attributeValue := None)
                          else s.(attributeValue := AppendChar(s.attributeValue, c))
  {
  }

  /** The classes the constructor tests an interpolated value against. */
  datatype ValueKind =
    | SignalValue(id: string)    // an instance of `Signal`, with its `id`
    | FunctionValue              // an instance of `Function`
    | ComponentValue             // an instance of `MasterElement` or of `Template`
    | OtherValue

  /** An interpolated value: its class and its string conversion `${value}`. */
  datatype Value = Value(kind: ValueKind, text: string)

  /** An entry of `$_nodes`. */
  datatype NodeEntry =
    | Component(v: Value)        // a component pushed as is for an `:outlet` attribute
    | SignalFragment(id: string) // the fragment holding a signal's current value between two comments
    | Parsed(v: Value)           // `parseValue(value)`

  /** What the constructor has built so far. */
  datatype Build = Build(
    state: State, html: string, nodes: seq<NodeEntry>,
    signals: map<string, Value>, listeners: map<string, Value>, issued: nat)

  const Empty := Build(Initial, "", [], map[], map[], 0)

  /** The `:outlet` marker for node `n`. */
  function OutletMarker(n: nat): string
  {
    "<x :outlet=\"" + NatToString(n) + "\"></x>"
  }

  /** Whether the value completes a `<x ` tag as a component outlet. */
  predicate IsOutlet(b: Build, part: string, v: Value)
  {
    b.state.current == TagInner && b.state.tag == Some("x") && EndsWith(TrimEnd(part), "<x") && v.kind.ComponentValue?
  }

  /** The error thrown for a value in a state that cannot take one. */
  function UnexpectedValue(html: string, v: Value): string
  {
    "Unexpected value at\n" + LastN(html, 256) + "${" + v.text + "}..."
  }

  /** Splices the value that follows `part` into the build, by the state the machine is in. */
  function Interpolate(b: Build, part: string, v: Value, ids: nat -> string): (r: Result<Build>)
    ensures r.Ok? ==> r.value.state == b.state && b.html <= r.value.html && b.nodes <= r.value.nodes
  {
    var s := b.state.current;
    if IsOutlet(b, part, v) then
      Ok(b.(html := b.html + ":outlet=\"" + NatToString(|b.nodes|) + "\"", nodes := b.nodes + [Component(v)]))
    else if v.kind.SignalValue? && (s == AttributeValueDoubleQuoted || s == AttributeValueSingleQuoted) then
      Ok(b.(html := b.html + "<$" + v.kind.id + ">", signals := b.signals[v.kind.id := v]))
    else if s == AttributeValueDoubleQuoted then
      Ok(b.(html := b.html + Replace(v.text, '"', "&quot;")))
    else if s == AttributeValueSingleQuoted then
      Ok(b.(html := b.html + Replace(v.text, '\'', "&#39;")))
    else if s == AttributeValueUnquoted then
      match v.kind
      case SignalValue(id) => Ok(b.(html := b.html + "\"<$" + id + ">\"", signals := b.signals[id := v]))
      case FunctionValue =>
        var id := ids(b.issued);
        Ok(b.(html := b.html + id, listeners := b.listeners[id := v], issued := b.issued + 1))
      case _ => Ok(b.(html := b.html + "\"" + Replace(v.text, '"', "&quot;") + "\""))
    else if s == Outer then
      match v.kind
      case SignalValue(id) =>
        Ok(b.(html := b.html + OutletMarker(|b.nodes|), nodes := b.nodes + [SignalFragment(id)],
              signals := b.signals[id := v]))
      case _ =>
        Ok(b.(html := b.html + OutletMarker(|b.nodes|), nodes := b.nodes + [Parsed(v)]))
    else Err(UnexpectedValue(b.html, v))
  }

  /** The constructor's loop over the first `n` strings: each string, then the value after it if there is one. */
  function Run(parts: seq<string>, values: seq<Value>, ids: nat -> string, n: nat): Result<Build>
    requires n <= |parts|
  {
    if n == 0 then Ok(Empty)
    else match Run(parts, values, ids, n - 1)
      case Err(msg) => Err(msg)
      case Ok(b) =>
        var part := parts[n - 1];
        var b' := b.(state := Scan(b.state, part), html := b.html + part);
        if n - 1 < |values| then Interpolate(b', part, values[n - 1], ids) else Ok(b')
  }

  /**
   * Every character of every string reaches `html` unchanged and in order:
   * after `n` strings, the html built after `m` strings followed by string
   * `m` is a prefix of it.
   */
  lemma {:induction false} PartsCopied(parts: seq<string>, values: seq<Value>, ids: nat -> string, m: nat, n: nat)
    requires m < n <= |parts| && Run(parts, values, ids, n).Ok?
    ensures Run(parts, values, ids, m).Ok?
    ensures Run(parts, values, ids, m).value.html + parts[m] <= Run(parts, values, ids, n).value.html
    decreases n
  {
    var r := Run(parts, values, ids, n - 1);
    assert r.Ok?;
    var part := parts[n - 1];
    var b' := r.value.(state := Scan(r.value.state, part), html := r.value.html + part);
    if m < n - 1 {
      PartsCopied(parts, values, ids, m, n - 1);
    }
  }

  /**
   * A plain value in a double-quoted attribute cannot end it: the text
   * added has no `"`, and replacing `&quot;` back gives the value's text
   * when that text holds no `&`.
   */
  lemma DoubleQuotedEscape(b: Build, part: string, v: Value, ids: nat -> string)
    requires b.state.current == AttributeValueDoubleQuoted && !v.kind.SignalValue?
    ensures Interpolate(b, part, v, ids).Ok?
    ensures var h := Interpolate(b, part, v, ids).value.html;
            && b.html <= h
            && '"' !in h[|b.html|..]
            && ('&' !in v.text ==> Unreplace(h[|b.html|..], '"', "&quot;") == v.text)
  {
    var h := Interpolate(b, part, v, ids).value.html;
    assert h[|b.html|..] == Replace(v.text, '"', "&quot;");
    if '&' !in v.text {
      UnreplaceReplace(v.text, '"', "&quot;");
    }
  }

  /**
   * A plain value in a single-quoted attribute cannot end it: the text
   * added has no `'`, and replacing `&#39;` back gives the value's text
   * when that text holds no `&`.
   */
  lemma SingleQuotedEscape(b: Build, part: string, v: Value, ids: nat -> string)
    requires b.state.current == AttributeValueSingleQuoted && !v.kind.SignalValue?
    ensures Interpolate(b, part, v, ids).Ok?
    ensures var h := Interpolate(b, part, v, ids).value.html;
            && b.html <= h
            && '\'' !in h[|b.html|..]
            && ('&' !in v.text ==> Unreplace(h[|b.html|..], '\'', "&#39;") == v.text)
  {
    var h := Interpolate(b, part, v, ids).value.html;
    assert h[|b.html|..] == Replace(v.text, '\'', "&#39;");
    if '&' !in v.text {
      UnreplaceReplace(v.text, '\'', "&#39;");
    }
  }

  /**
   * Any value other than a signal or a function (a component value too)
   * in an unquoted attribute is quoted: the text added is `"`, the escaped
   * value with no `"` inside, and `"`.
   */
  lemma UnquotedWrapped(b: Build, part: string, v: Value, ids: nat -> string)
    requires b.state.current == AttributeValueUnquoted && !v.kind.SignalValue? && !v.kind.FunctionValue?
    ensures Interpolate(b, part, v, ids).Ok?
    ensures var h := Interpolate(b, part, v, ids).value.html;
            var added := h[|b.html|..];
            && b.html <= h
            && |added| >= 2 && added[0] == '"' && added[|added| - 1] == '"'
            && '"' !in added[1..|added| - 1]
  {
    var esc := Replace(v.text, '"', "&quot;");
    assert Interpolate(b, part, v, ids) == Ok(b.(html := b.html + "\"" + esc + "\""));
    var h := Interpolate(b, part, v, ids).value.html;
    assert h[|b.html|..] == "\"" + esc + "\"";
    assert h[|b.html|..][1..|h[|b.html|..]| - 1] == esc;
  }

  /**
   * A value between tags becomes the next node, and the marker added to
   * the html names its index in `$_nodes`.
   */
  lemma OuterOutlet(b: Build, part: string, v: Value, ids: nat -> string)
    requires b.state.current == Outer
    ensures Interpolate(b, part, v, ids).Ok?
    ensures var b' := Interpolate(b, part, v, ids).value;
            && |b'.nodes| == |b.nodes| + 1 && b'.nodes[..|b.nodes|] == b.nodes
            && b'.nodes[|b.nodes|] == (if v.kind.SignalValue? then SignalFragment(v.kind.id) else Parsed(v))
            && b'.html == b.html + OutletMarker(|b.nodes|)
            && DigitsValue(NatToString(|b.nodes|)) == |b'.nodes| - 1
  {
    NatToStringRoundTrip(|b.nodes|);
  }

  /**
   * A value is rejected exactly when the machine is inside a tag name, a
   * closing tag or an attribute name, or between attributes without
   * completing an `<x ` outlet tag.
   */
  lemma RejectedIff(b: Build, part: string, v: Value, ids: nat -> string)
    ensures Interpolate(b, part, v, ids).Err? <==>
              (b.state.current in {TagName, TagClose, AttributeName}
               || (b.state.current == TagInner && !IsOutlet(b, part, v)))
  {
  }

  /**
   * The inner loop over the characters of one string: every character is
   * copied to the html unchanged, and the state ends as `Scan` says.
   */
  method ScanPart(start: State, html: string, part: string) returns (state: State, html': string)
    ensures state == Scan(start, part)
    ensures html' == html + part
  {
    state, html' := start, html;
    var j := 0;
    while j < |part|
      invariant 0 <= j <= |part|
      invariant state == Scan(start, part[..j]) && html' == html + part[..j]
    {
      var ch := part[j];
      ghost var s0 := state;
      match state.current {
      case Outer =>
        if ch == '<' {
          state := state.(current := TagName, tag := Some(""));
        }
      case TagName =>
        if (state.tag == None || state.tag == Some("")) && ch == '/' {
          state := state.(current := TagClose, tag := Some(""));
        } else if ch == '>' {
          state := state.(current := Outer, tag := None);
        } else if ch == ' ' {
          state := state.(current := TagInner);
        } else {
          state := state.(tag := AppendChar(state.tag, ch));
        }
      case TagInner =>
        if ch == '>' {
          state := state.(current := Outer, tag := None);
        } else if ch == ' ' {
          state := state.(current := TagInner);
        } else {
          state := state.(current := AttributeName, attributeName := Some([ch]));
        }
      case AttributeName =>
        if ch == '>' {
          state := state.(current := Outer, tag := None, attributeName := None);
        } else if ch == ' ' {
          state := state.(current := TagInner, attributeName := None);
        } else if ch == '=' {
          state := state.(current := AttributeValueUnquoted, attributeValue := Some(""));
        } else {
          state := state.(attributeName := AppendChar(state.attributeName, ch));
        }
      case AttributeValueUnquoted =>
        if ch == '>' {
          state := state.(current := Outer, tag := None, attributeName := None, attributeValue := None);
        } else if ch == ' ' {
          state := state.(current := TagInner, attributeName := None, attributeValue := None);
        } else if ch == '"' {
          state := state.(current := AttributeValueDoubleQuoted, attributeValue := Some(""));
        } else if ch == '\'' {
          state := state.(current := AttributeValueSingleQuoted, attributeValue := Some(""));
        } else {
          state := state.(attributeValue := AppendChar(state.attributeValue, ch));
        }
      case AttributeValueSingleQuoted =>
        if ch == '\'' {
          state := state.(current := TagInner, attributeName := None, attributeValue := None);
        } else {
          state := state.(attributeValue := AppendChar(state.attributeValue, ch));
        }
      case AttributeValueDoubleQuoted =>
        if ch == '"' {
          state := state.(current := TagInner, attributeName := None, attributeValue := None);
        } else {
          state := state.(attributeValue := AppendChar(state.attributeValue, ch));
        }
      case TagClose =>
        if ch == '>' {
          state := state.(current := Outer, tag := None);
        } else {
          state := state.(tag := AppendChar(state.tag, ch));
        }
      }
      assert state == Step(s0, ch);
      assert part[..j + 1][..j] == part[..j] && part[..j + 1] == part[..j] + [ch];
      html' := html' + [ch];
      j := j + 1;
    }
    assert part[..|part|] == part;
  }

  /** The `Template` under construction: the collections its constructor fills in. */
  class Template {
    /** `$_nodes`. */
    var nodes: seq<NodeEntry>
    /** `$_listeners`, by listener id. */
    var listeners: map<string, Value>
    /** `$_signals`, by signal id. */
    var signals: map<string, Value>
    /** The markup handed to the `template` element. */
    var html: string

    constructor ()
      ensures nodes == [] && listeners == map[] && signals == map[] && html == ""
    {
      nodes, listeners, signals, html := [], map[], map[], "";
    }

    /**
     * The constructor's tokenizer loop (the DOM steps after it are not
     * modelled): fills the fields from the strings and values, or returns
     * the error the constructor throws.
     */
    method Tokenize(parts: seq<string>, values: seq<Value>, ids: nat -> string) returns (error: Option<string>)
      requires nodes == [] && listeners == map[] && signals == map[] && html == ""
      modifies this
      ensures match Run(parts, values, ids, |parts|)
              case Ok(b) => error == None && html == b.html && nodes == b.nodes && signals == b.signals && listeners == b.listeners
              case Err(msg) => error == Some(msg)
    {
      var state := Initial;
      var issued := 0;
      var markup := "";
      error := None;
      var i := 0;
      while i < |parts| && error == None
        invariant 0 <= i <= |parts|
        invariant error == None ==> Run(parts, values, ids, i) == Ok(Build(state, markup, nodes, signals, listeners, issued))
        invariant error != None ==> Run(parts, values, ids, i) == Err(error.value)
      {
        state, markup, issued, error := TokenizePart(parts, values, ids, i, state, markup, issued);
        i := i + 1;
      }
      if error != None {
        RunFailureStays(parts, values, ids, i, |parts|);
      }
      html := markup;
    }

    /** One turn of the outer loop: string `i`, then the value after it if there is one. */
    method TokenizePart(parts: seq<string>, values: seq<Value>, ids: nat -> string, i: nat,
                        state: State, markup: string, issued: nat)
      returns (state': State, markup': string, issued': nat, error: Option<string>)
      requires i < |parts| && Run(parts, values, ids, i) == Ok(Build(state, markup, nodes, signals, listeners, issued))
      modifies this
      ensures error == None ==> Run(parts, values, ids, i + 1) == Ok(Build(state', markup', nodes, signals, listeners, issued'))
      ensures error != None ==> Run(parts, values, ids, i + 1) == Err(error.value)
    {
      var part := parts[i];
      ghost var before := Build(state, markup, nodes, signals, listeners, issued);
      state', markup' := ScanPart(state, markup, part);
      issued', error := issued, None;
      ghost var mid := Build(state', markup', nodes, signals, listeners, issued');
      if i < |values| {
        RunNext(parts, values, ids, i, before, mid);
        markup', issued', error := Splice(state', part, values[i], ids, markup', issued');
      } else {
        RunNextLast(parts, values, ids, i, before, mid);
      }
    }

    /** The interpolation branch: splices `value`, which follows `part`, into the fields, or returns the error thrown. */
    method Splice(state: State, part: string, value: Value, ids: nat -> string, html: string, issued: nat)
      returns (html': string, issued': nat, error: Option<string>)
      modifies this
      ensures match Interpolate(Build(state, html, old(nodes), old(signals), old(listeners), issued), part, value, ids)
              case Ok(b) => error == None && issued' == b.issued
                            && html' == b.html && nodes == b.nodes && signals == b.signals && listeners == b.listeners
              case Err(msg) => error == Some(msg)
    {
      html', issued', error := html, issued, None;
      var current := state.current;
      if current == TagInner && state.tag == Some("x") && EndsWith(TrimEnd(part), "<x") && value.kind.ComponentValue? {
        html' := html' + ":outlet=\"" + NatToString(|nodes|) + "\"";
        nodes := nodes + [Component(value)];
      } else if value.kind.SignalValue? && (current == AttributeValueDoubleQuoted || current == AttributeValueSingleQuoted) {
        html' := html' + "<$" + value.kind.id + ">";
        signals := signals[value.kind.id := value];
      } else if current == AttributeValueDoubleQuoted {
        html' := html' + Replace(value.text, '"', "&quot;");
      } else if current == AttributeValueSingleQuoted {
        html' := html' + Replace(value.text, '\'', "&#39;");
      } else if current == AttributeValueUnquoted {
        match value.kind {
        case SignalValue(id) =>
          signals := signals[id := value];
          html' := html' + "\"<$" + id + ">\"";
        case FunctionValue =>
          var id := ids(issued);
          issued' := issued + 1;
          listeners := listeners[id := value];
          html' := html' + id;
        case _ =>
          html' := html' + "\"" + Replace(value.text, '"', "&quot;") + "\"";
        }
      } else if current == Outer {
        match value.kind {
        case SignalValue(id) =>
          signals := signals[id := value];
          nodes := nodes + [SignalFragment(id)];
        case _ =>
          nodes := nodes + [Parsed(value)];
        }
        html' := html' + OutletMarker(|nodes| - 1);
      } else {
        error := Some(UnexpectedValue(html, value));
      }
    }
  }

  /** The string after the first `n` ones is scanned, then the value after it is spliced in. */
  lemma RunNext(parts: seq<string>, values: seq<Value>, ids: nat -> string, n: nat, b: Build, mid: Build)
    requires n < |parts| && n < |values| && Run(parts, values, ids, n) == Ok(b)
    requires mid == b.(state := Scan(b.state, parts[n]), html := b.html + parts[n])
    ensures Run(parts, values, ids, n + 1) == Interpolate(mid, parts[n], values[n], ids)
  {
  }

  /** A string with no value after it is only scanned. */
  lemma RunNextLast(parts: seq<string>, values: seq<Value>, ids: nat -> string, n: nat, b: Build, mid: Build)
    requires |values| <= n < |parts| && Run(parts, values, ids, n) == Ok(b)
    requires mid == b.(state := Scan(b.state, parts[n]), html := b.html + parts[n])
    ensures Run(parts, values, ids, n + 1) == Ok(mid)
  {
  }

  /** Once a value is rejected, the constructor's outcome is that error. */
  lemma {:induction false} RunFailureStays(parts: seq<string>, values: seq<Value>, ids: nat -> string, n: nat, m: nat)
    requires n <= m <= |parts| && Run(parts, values, ids, n).Err?
    ensures Run(parts, values, ids, m) == Run(parts, values, ids, n)
    decreases m
  {
    if m > n {
      RunFailureStays(parts, values, ids, n, m - 1);
    }
  }
}
