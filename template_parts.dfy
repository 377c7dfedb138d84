/**
 * The tagged-template tokenizer of library/template/parts.ts.
 *
 * `parseTemplateParts` runs a character state machine (`processChar`) over
 * every string of a tagged template.  The machine's state object is shared
 * by all strings and mutated in place; after each string, the html built
 * for it and a copy of the state are recorded as one template part.
 * Outside tags, runs of white space collapse to their first character, and
 * a `:ref` attribute carrying a fresh id is injected after every tag name
 * that is followed by white space.
 *
 * `randomId()` is modelled by a source of ids `ids: nat -> string` read at
 * a counter (`issued`) that advances each time an id is drawn.
 */
module TemplateParts {
  import opened Text

  /**
   * The states the machine enters.  The enum's marker members
   * (`TAG_START`, `TAG_END`, `ATTR_START`, ...) are never assigned and are
   * left out.
   */
  datatype StateType =
    | Outer
    | TagName
    | TagInner
    | TagClose
    | AttributeName
    | AttributeValueUnquoted
    | AttributeValueSingleQuoted
    | AttributeValueDoubleQuoted

  /** The `TemplateState` record, as copied into every part. */
  datatype TemplateState = TemplateState(
    kind: StateType, tag: string, tagRef: string, attributeName: string, attributeValue: string)

  /** A `TemplatePart`: the html built for one string and the state at its end. */
  datatype TemplatePart = TemplatePart(html: string, state: TemplateState)

  /** The state `parseTemplateParts` starts from. */
  const Initial := TemplateState(Outer, "", "", "", "")

  /** The attribute injected after a tag name: ` :ref="<tagRef>"`. */
  function RefAttribute(tagRef: string): string
  {
    " :ref=\"" + tagRef + "\""
  }

  /** The message `processChar` throws for a character it does not accept in an unquoted attribute value. */
  function UnexpectedMessage(c: char): string
  {
    "Unexpected character '" + [c] + "' in attribute value"
  }

  /** What one `processChar` call does: the new state and html, or the character it rejects. */
  datatype Transition = Next(state: TemplateState, html: string) | Unexpected(c: char)

  /**
   * One step of the machine on character `c`, given the html built so far
   * in the current string and the id `randomId()` would return next.
   */
  function Step(s: TemplateState, c: char, html: string, freshRef: string): Transition
  {
    match s.kind
    case Outer =>
      if c == '<' then Next(TemplateState(TagName, "", freshRef, "", ""), html + [c])
      else if |html| > 0 && IsSpace(html[|html| - 1]) && IsSpace(c) then Next(s, html)
      else Next(s, html + [c])
    case TagName =>
      if s.tag == "" && c == '/' then Next(s.(kind := TagClose, tag := ""), html + [c])
      else if c == '>' then Next(s.(kind := Outer), html + [c])
      else if IsSpace(c) then Next(s.(kind := TagInner), html + RefAttribute(s.tagRef) + [c])
      else Next(s.(tag := s.tag + [c]), html + [c])
    case TagInner =>
      if c == '>' then Next(s.(kind := Outer), html + [c])
      else if IsSpace(c) then Next(s.(kind := TagInner), html + [c])
      else Next(s.(kind := AttributeName, attributeName := [c]), html + [c])
    case TagClose =>
      if c == '>' then Next(s.(kind := Outer, tag := ""), html + [c])
      else Next(s.(tag := s.tag + [c]), html + [c])
    case AttributeName =>
      if c == '>' then Next(s.(kind := Outer), html + [c])
      else if IsSpace(c) then Next(s.(kind := TagInner), html + [c])
      else if c == '=' then Next(s.(kind := AttributeValueUnquoted, attributeValue := ""), html + [c])
      else Next(s.(attributeName := s.attributeName + [c]), html + [c])
    case AttributeValueUnquoted =>
      if c == '>' then Next(s.(kind := Outer), html + [c])
      else if IsSpace(c) then Next(s.(kind := TagInner), html + [c])
      else if c == '"' then Next(s.(kind := AttributeValueDoubleQuoted, attributeValue := ""), html + [c])
      else if c == '\'' then Next(s.(kind := AttributeValueSingleQuoted, attributeValue := ""), html + [c])
      else Unexpected(c)
    case AttributeValueSingleQuoted =>
      if c == '\'' then Next(s.(kind := TagInner), html + [c])
      else Next(s.(attributeValue := s.attributeValue + [c]), html + [c])
    case AttributeValueDoubleQuoted =>
      if c == '"' then Next(s.(kind := TagInner), html + [c])
      else Next(s.(attributeValue := s.attributeValue + [c]), html + [c])
  }

  /** Whether a step on `c` draws a fresh id. */
  predicate DrawsId(s: TemplateState, c: char)
  {
    s.kind == Outer && c == '<'
  }

  /**
   * The html is never rewritten: a step keeps it as a prefix, and the
   * character is appended (last) in every case but one, a white-space
   * character following white space outside tags, which is dropped.
   */
  lemma CharKept(s: TemplateState, c: char, html: string, freshRef: string)
    requires Step(s, c, html, freshRef).Next?
    ensures var h := Step(s, c, html, freshRef).html;
            && html <= h
            && (h == html <==>
                  s.kind == Outer && c != '<' && |html| > 0 && IsSpace(html[|html| - 1]) && IsSpace(c))
            && (h != html ==> h[|h| - 1] == c)
  {
  }

  /** `<` outside tags opens a tag with empty name and attributes and a fresh `tagRef`. */
  lemma OpenTag(s: TemplateState, html: string, freshRef: string)
    requires s.kind == Outer
    ensures Step(s, '<', html, freshRef) == Next(TemplateState(TagName, "", freshRef, "", ""), html + "<")
  {
  }

  /**
   * In a tag name: `/` first closes, white space injects the `:ref`
   * attribute before the character and moves inside the tag, `>` leaves
   * the tag, and any other character extends the name.
   */
  lemma TagNameSteps(s: TemplateState, c: char, html: string, freshRef: string)
    requires s.kind == TagName
    ensures s.tag == "" && c == '/' ==> Step(s, c, html, freshRef) == Next(s.(kind := TagClose), html + [c])
    ensures IsSpace(c) ==> Step(s, c, html, freshRef) == Next(s.(kind := TagInner), html + RefAttribute(s.tagRef) + [c])
    ensures c == '>' ==> Step(s, c, html, freshRef) == Next(s.(kind := Outer), html + [c])
    ensures !(s.tag == "" && c == '/') && !IsSpace(c) && c != '>' ==>
              Step(s, c, html, freshRef) == Next(s.(tag := s.tag + [c]), html + [c])
  {
  }

  /**
   * The machine rejects exactly one kind of character: in an unquoted
   * attribute value, anything but `>`, white space or a quote.
   */
  lemma UnexpectedIff(s: TemplateState, c: char, html: string, freshRef: string)
    ensures Step(s, c, html, freshRef).Unexpected? <==>
              s.kind == AttributeValueUnquoted && c != '>' && !IsSpace(c) && c != '"' && c != '\''
    ensures Step(s, c, html, freshRef).Unexpected? ==> Step(s, c, html, freshRef).c == c
  {
  }

  /** The quote character that closes a quoted attribute-value state. */
  function ClosingQuote(k: StateType): char
    requires k == AttributeValueSingleQuoted || k == AttributeValueDoubleQuoted
  {
    if k == AttributeValueSingleQuoted then '\'' else '"'
  }

  /** Inside a quoted value, a character accumulates unless it is the matching quote, which returns inside the tag. */
  lemma QuotedStep(s: TemplateState, c: char, html: string, freshRef: string)
    requires s.kind == AttributeValueSingleQuoted || s.kind == AttributeValueDoubleQuoted
    ensures c == ClosingQuote(s.kind) ==> Step(s, c, html, freshRef) == Next(s.(kind := TagInner), html + [c])
    ensures c != ClosingQuote(s.kind) ==>
              Step(s, c, html, freshRef) == Next(s.(attributeValue := s.attributeValue + [c]), html + [c])
  {
  }

  /** The machine's position inside one string: its state, ids drawn so far, and html built. */
  datatype Cursor = Cursor(state: TemplateState, issued: nat, html: string)

  /** The outcome of running the machine over (a prefix of) one string. */
  datatype Scan = Scanned(cur: Cursor) | Stuck(at: nat, cur: Cursor)

  /** One character fed to the machine at `cur`. */
  function Feed(ids: nat -> string, cur: Cursor, c: char): Option<Cursor>
  {
    match Step(cur.state, c, cur.html, ids(cur.issued))
    case Next(s, h) => Some(Cursor(s, cur.issued + (if DrawsId(cur.state, c) then 1 else 0), h))
    case Unexpected(_) => None
  }

  /** The first `k` characters of `part` fed from `cur`; `Stuck(i, c)` if character `i` was rejected at `c`. */
  function FeedPart(ids: nat -> string, cur: Cursor, part: string, k: nat): (r: Scan)
    requires k <= |part|
    ensures r.Stuck? ==> r.at < k
  {
    if k == 0 then Scanned(cur)
    else match FeedPart(ids, cur, part, k - 1)
      case Stuck(i, c) => Stuck(i, c)
      case Scanned(c) =>
        match Feed(ids, c, part[k - 1])
        case None => Stuck(k - 1, c)
        case Some(c') => Scanned(c')
  }

  /** Once the machine rejects a character, feeding more of the string changes nothing. */
  lemma {:induction false} StuckStays(ids: nat -> string, cur: Cursor, part: string, k: nat, m: nat)
    requires k <= m <= |part| && FeedPart(ids, cur, part, k).Stuck?
    ensures FeedPart(ids, cur, part, m) == FeedPart(ids, cur, part, k)
    decreases m
  {
    if m > k {
      StuckStays(ids, cur, part, k, m - 1);
    }
  }

  /** Feeding a string only extends the html: what was built before is kept. */
  lemma {:induction false} FeedPartExtends(ids: nat -> string, cur: Cursor, part: string, k: nat)
    requires k <= |part|
    ensures cur.html <= FeedPart(ids, cur, part, k).cur.html
  {
    if k > 0 {
      FeedPartExtends(ids, cur, part, k - 1);
      match FeedPart(ids, cur, part, k - 1)
      case Stuck(_, _) =>
      case Scanned(c) =>
        match Feed(ids, c, part[k - 1])
        case None =>
        case Some(c') => CharKept(c.state, part[k - 1], c.html, ids(c.issued));
    }
  }

  /** A quoted value absorbs every character up to its closing quote, and they all reach the html. */
  lemma {:induction false} QuotedRun(ids: nat -> string, cur: Cursor, part: string, k: nat)
    requires k <= |part|
    requires cur.state.kind == AttributeValueSingleQuoted || cur.state.kind == AttributeValueDoubleQuoted
    requires ClosingQuote(cur.state.kind) !in part[..k]
    ensures FeedPart(ids, cur, part, k) ==
              Scanned(cur.(state := cur.state.(attributeValue := cur.state.attributeValue + part[..k]),
                           html := cur.html + part[..k]))
  {
    if k > 0 {
      var q, p, x := ClosingQuote(cur.state.kind), part[..k - 1], part[k - 1];
      assert part[..k] == p + [x];
      QuotedRun(ids, cur, part, k - 1);
      FeedQuoted(ids, FeedPart(ids, cur, part, k - 1).cur, x);
    }
  }

  /** One character other than the closing quote, fed inside a quoted value, is absorbed into it and into the html. */
  lemma FeedQuoted(ids: nat -> string, c: Cursor, x: char)
    requires c.state.kind == AttributeValueSingleQuoted || c.state.kind == AttributeValueDoubleQuoted
    requires x != ClosingQuote(c.state.kind)
    ensures Feed(ids, c, x) == Some(c.(state := c.state.(attributeValue := c.state.attributeValue + [x]), html := c.html + [x]))
  {
    QuotedStep(c.state, x, c.html, ids(c.issued));
  }

  /** The html of all parts so far, concatenated (`templateParts.map(p => p.html).join('')`). */
  function JoinHtml(parts: seq<TemplatePart>): string
  {
    if |parts| == 0 then "" else JoinHtml(parts[..|parts| - 1]) + parts[|parts| - 1].html
  }

  /**
   * The error `parseTemplateParts` re-throws when character `i` of `part`
   * is rejected: the message, then the html so far with the character
   * marked by `{{{` `}}}` and the rest of the string, trimmed.
   */
  function ErrorMessage(parts: seq<TemplatePart>, html: string, part: string, i: nat): (msg: string)
    requires i < |part|
    ensures "Parsing error:" <= msg
  {
    var errorHtml := "\n" + Trim(JoinHtml(parts) + html + "{{{" + [part[i]] + "}}}" + part[i + 1..]) + "\n";
    "Parsing error:" + UnexpectedMessage(part[i]) + "\nAt:\n" + errorHtml
  }

  /** The outcome of parsing the first strings of a template. */
  datatype Parsing = Parsing(parts: seq<TemplatePart>, state: TemplateState, issued: nat) | Failed(msg: string)

  /** `parseTemplateParts` on the first `n` strings of `arr`. */
  function ParseUpTo(ids: nat -> string, arr: seq<string>, n: nat): Parsing
    requires n <= |arr|
  {
    if n == 0 then Parsing([], Initial, 0)
    else match ParseUpTo(ids, arr, n - 1)
      case Failed(msg) => Failed(msg)
      case Parsing(parts, s, k) =>
        match FeedPart(ids, Cursor(s, k, ""), arr[n - 1], |arr[n - 1]|)
        case Scanned(cur) => Parsing(parts + [TemplatePart(cur.html, cur.state)], cur.state, cur.issued)
        case Stuck(i, cur) => Failed(ErrorMessage(parts, cur.html, arr[n - 1], i))
  }

  /**
   * One part per string, in order: after `n` strings there are `n` parts,
   * the last part's state is the live state, and each earlier part is
   * exactly what was recorded when its string ended (later strings do not
   * change a stored snapshot).
   */
  lemma {:induction false} PartsPerString(ids: nat -> string, arr: seq<string>, n: nat, m: nat)
    requires m <= n <= |arr| && ParseUpTo(ids, arr, n).Parsing?
    ensures |ParseUpTo(ids, arr, n).parts| == n
    ensures n > 0 ==> ParseUpTo(ids, arr, n).parts[n - 1].state == ParseUpTo(ids, arr, n).state
    ensures ParseUpTo(ids, arr, m).Parsing? && ParseUpTo(ids, arr, m).parts == ParseUpTo(ids, arr, n).parts[..m]
    decreases n
  {
    if n > 0 {
      PartsPerString(ids, arr, n - 1, if m == n then n - 1 else m);
    }
  }

  /** A failure is final, and its message carries the "Parsing error:" prefix. */
  lemma {:induction false} FailureStays(ids: nat -> string, arr: seq<string>, n: nat, m: nat)
    requires n <= m <= |arr| && ParseUpTo(ids, arr, n).Failed?
    ensures ParseUpTo(ids, arr, m) == ParseUpTo(ids, arr, n)
    ensures "Parsing error:" <= ParseUpTo(ids, arr, m).msg
    decreases n, m - n
  {
    if m > n {
      FailureStays(ids, arr, n, m - 1);
    } else if ParseUpTo(ids, arr, n - 1).Failed? {
      FailureStays(ids, arr, n - 1, n - 1);
    } else {
      var p := ParseUpTo(ids, arr, n - 1);
      var scan := FeedPart(ids, Cursor(p.state, p.issued, ""), arr[n - 1], |arr[n - 1]|);
      assert scan.Stuck?;
      assert ParseUpTo(ids, arr, n).msg == ErrorMessage(p.parts, scan.cur.html, arr[n - 1], scan.at);
    }
  }

  /** Parsing string `n` to its end records one more part and carries the state over. */
  lemma ParseNext(ids: nat -> string, arr: seq<string>, n: nat, parts: seq<TemplatePart>, s: TemplateState, k: nat, cur: Cursor)
    requires n < |arr| && ParseUpTo(ids, arr, n) == Parsing(parts, s, k)
    requires FeedPart(ids, Cursor(s, k, ""), arr[n], |arr[n]|) == Scanned(cur)
    ensures ParseUpTo(ids, arr, n + 1) == Parsing(parts + [TemplatePart(cur.html, cur.state)], cur.state, cur.issued)
  {
  }

  /** A character rejected in string `n` fails the parse with the wrapped error. */
  lemma ParseStuck(ids: nat -> string, arr: seq<string>, n: nat, parts: seq<TemplatePart>, s: TemplateState, k: nat, i: nat, cur: Cursor)
    requires n < |arr| && ParseUpTo(ids, arr, n) == Parsing(parts, s, k)
    requires FeedPart(ids, Cursor(s, k, ""), arr[n], |arr[n]|) == Stuck(i, cur)
    ensures i < |arr[n]|
    ensures ParseUpTo(ids, arr, |arr|) == Failed(ErrorMessage(parts, cur.html, arr[n], i))
  {
    FailureStays(ids, arr, n + 1, |arr|);
  }

  /** The mutable `state` object that `processChar` updates field by field. */
  class StateObject {
    var kind: StateType
    var tag: string
    var tagRef: string
    var attributeName: string
    var attributeValue: string
    /** The source of `randomId()` results, and how many have been drawn. */
    const ids: nat -> string
    var issued: nat

    constructor (ids: nat -> string)
      ensures Snapshot() == Initial && issued == 0 && this.ids == ids
    {
      kind, tag, tagRef, attributeName, attributeValue := Outer, "", "", "", "";
      this.ids := ids;
      issued := 0;
    }

    /** `{ ...state }`: a copy of the fields. */
    function Snapshot(): TemplateState
      reads this
    {
      TemplateState(kind, tag, tagRef, attributeName, attributeValue)
    }

    /** The machine's position, for specifications. */
    function At(html: string): Cursor
      reads this
    {
      Cursor(Snapshot(), issued, html)
    }

    /** `processChar`: updates the state in place and returns the new html, or throws. */
    method ProcessChar(c: char, html: string) returns (r: Result<string>)
      modifies this
      ensures match Feed(ids, old(At(html)), c)
              case Some(cur) => r == Ok(cur.html) && At(cur.html) == cur
              case None => r == Err(UnexpectedMessage(c)) && Snapshot() == old(Snapshot()) && issued == old(issued)
    {
      var h := html;
      match kind {
      case Outer =>
        if c == '<' {
          kind := TagName;
          tag := "";
          tagRef := ids(issued);
          issued := issued + 1;
          attributeName := "";
          attributeValue := "";
        } else if |html| > 0 && IsSpace(html[|html| - 1]) && IsSpace(c) {
          return Ok(html);
        }
      case TagName =>
        if tag == "" && c == '/' {
          kind := TagClose;
          tag := "";
        } else if c == '>' {
          kind := Outer;
        } else if IsSpace(c) {
          kind := TagInner;
          h := h + RefAttribute(tagRef);
        } else {
          tag := tag + [c];
        }
      case TagInner =>
        if c == '>' {
          kind := Outer;
        } else if IsSpace(c) {
          kind := TagInner;
        } else {
          kind := AttributeName;
          attributeName := [c];
        }
      case TagClose =>
        if c == '>' {
          kind := Outer;
          tag := "";
        } else {
          tag := tag + [c];
        }
      case AttributeName =>
        if c == '>' {
          kind := Outer;
        } else if IsSpace(c) {
          kind := TagInner;
        } else if c == '=' {
          kind := AttributeValueUnquoted;
          attributeValue := "";
        } else {
          attributeName := attributeName + [c];
        }
      case AttributeValueUnquoted =>
        if c == '>' {
          kind := Outer;
        } else if IsSpace(c) {
          kind := TagInner;
        } else if c == '"' {
          kind := AttributeValueDoubleQuoted;
          attributeValue := "";
        } else if c == '\'' {
          kind := AttributeValueSingleQuoted;
          attributeValue := "";
        } else {
          return Err(UnexpectedMessage(c));
        }
      case AttributeValueSingleQuoted =>
        if c == '\'' {
          kind := TagInner;
        } else {
          attributeValue := attributeValue + [c];
        }
      case AttributeValueDoubleQuoted =>
        if c == '"' {
          kind := TagInner;
        } else {
          attributeValue := attributeValue + [c];
        }
      }
      return Ok(h + [c]);
    }
  }

  /** `parseTemplateParts`: one part per string, or the first rejected character's error. */
  method ParseTemplateParts(arr: seq<string>, ids: nat -> string) returns (r: Result<seq<TemplatePart>>)
    ensures match ParseUpTo(ids, arr, |arr|)
            case Parsing(parts, _, _) => r == Ok(parts)
            case Failed(msg) => r == Err(msg)
  {
    var templateParts: seq<TemplatePart> := [];
    var state := new StateObject(ids);
    var i := 0;
    while i < |arr|
      invariant 0 <= i <= |arr|
      invariant state.ids == ids
      invariant ParseUpTo(ids, arr, i) == Parsing(templateParts, state.Snapshot(), state.issued)
    {
      var part := arr[i];
      var html := "";
      ghost var start := state.At("");
      var j := 0;
      while j < |part|
        invariant 0 <= j <= |part|
        invariant state.ids == ids
        invariant FeedPart(ids, start, part, j) == Scanned(state.At(html))
      {
        var c := part[j];
        var step := state.ProcessChar(c, html);
        match step {
        case Err(_) =>
          StuckStays(ids, start, part, j + 1, |part|);
          ParseStuck(ids, arr, i, templateParts, start.state, start.issued, j, state.At(html));
          return Err(ErrorMessage(templateParts, html, part, j));
        case Ok(h) =>
          html := h;
        }
        j := j + 1;
      }
      ParseNext(ids, arr, i, templateParts, start.state, start.issued, state.At(html));
      templateParts := templateParts + [TemplatePart(html, state.Snapshot())];
      i := i + 1;
    }
    return Ok(templateParts);
  }
}
