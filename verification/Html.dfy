/**
 The tokenizer of the template compiler in vue_stu/vue.js, parseHTML, and the element stack its
 callbacks keep in parse.  The regular expressions are scanners over the text; the events carry
 the attributes, decoded.
 */
module Html {
  import opened Basics

  // ---------- scanners ----------

  /** \s */
  predicate IsSpace(c: char) {
    || '\t' <= c <= '\r' || c == ' ' || c == '\U{A0}' || c == '\U{1680}' || '\U{2000}' <= c <= '\U{200A}'
    || c == '\U{2028}' || c == '\U{2029}' || c == '\U{202F}' || c == '\U{205F}' || c == '\U{3000}' || c == '\U{FEFF}'
  }

  predicate IsLetter(c: char) {
    'a' <= c <= 'z' || 'A' <= c <= 'Z' || c == '_'
  }

  predicate IsNameChar(c: char) {
    IsLetter(c) || '0' <= c <= '9' || c == '-' || c == '.'
  }

  /** [^\s"'<>/=] */
  predicate IsAttrChar(c: char) {
    !IsSpace(c) && c != '"' && c != '\'' && c != '<' && c != '>' && c != '/' && c != '='
  }

  /** [^\s"'=<>`] */
  predicate IsValueChar(c: char) {
    !IsSpace(c) && c != '"' && c != '\'' && c != '=' && c != '<' && c != '>' && c != '`'
  }

  /** The end of the longest run of characters in the class from k on. */
  function Span(s: string, k: nat, p: char -> bool): (e: nat)
    requires k <= |s|
    ensures k <= e <= |s| && (forall i :: k <= i < e ==> p(s[i])) && (e < |s| ==> !p(s[e]))
    decreases |s| - k
  {
    if k < |s| && p(s[k]) then Span(s, k + 1, p) else k
  }

  predicate StartsAt(s: string, k: nat, t: string) {
    k + |t| <= |s| && s[k..k + |t|] == t
  }

  function Lower(c: char): char {
    if 'A' <= c <= 'Z' then c + 32 as char else c
  }

  function LowerAll(s: string): (r: string)
    ensures |r| == |s|
  {
    seq(|s|, i requires 0 <= i < |s| => Lower(s[i]))
  }

  /** The same, whatever the case. */
  predicate StartsAtAny(s: string, k: nat, t: string) {
    k + |t| <= |s| && LowerAll(s[k..k + |t|]) == LowerAll(t)
  }

  /** String.prototype.indexOf */
  function IndexOf(s: string, t: string, from: nat): (r: Option<nat>)
    ensures r.Some? ==> from <= r.value && StartsAt(s, r.value, t)
    ensures forall k :: from <= k < (if r.Some? then r.value else |s|) ==> !StartsAt(s, k, t)
    decreases |s| - from
  {
    if from > |s| then None
    else if StartsAt(s, from, t) then Some(from)
    else IndexOf(s, t, from + 1)
  }

  /** The end of an NCName at k. */
  function NcName(s: string, k: nat): (r: Option<nat>)
    requires k <= |s|
    ensures r.Some? ==> k < r.value <= |s|
  {
    if k < |s| && IsLetter(s[k]) then Some(Span(s, k + 1, IsNameChar)) else None
  }

  /** The end of a qualified name at k. */
  function QName(s: string, k: nat): (r: Option<nat>)
    requires k <= |s|
    ensures r.Some? ==> k < r.value <= |s|
  {
    var a := NcName(s, k);
    if a.Some? && a.value < |s| && s[a.value] == ':' && NcName(s, a.value + 1).Some? then NcName(s, a.value + 1) else a
  }

  /** startTagOpen: the end of the tag's name. */
  function StartTagOpen(s: string): (r: Option<nat>)
    ensures r.Some? ==> 1 < r.value <= |s|
  {
    if StartsAt(s, 0, "<") then QName(s, 1) else None
  }

  /** endTag: the end of the name and the end of the tag. */
  function EndTag(s: string): (r: Option<(nat, nat)>)
    ensures r.Some? ==> 2 < r.value.0 < r.value.1 <= |s|
  {
    if !StartsAt(s, 0, "</") then None
    else
      var e := QName(s, 2);
      if e.None? then None
      else var g := IndexOf(s, ">", e.value); if g.Some? then Some((e.value, g.value + 1)) else None
  }

  /** startTagClose: the end of the tag and whether it has a slash. */
  function StartTagClose(s: string): (r: Option<(nat, bool)>)
    ensures r.Some? ==> 0 < r.value.0 <= |s|
  {
    var k := Span(s, 0, IsSpace);
    if StartsAt(s, k, "/>") then Some((k + 2, true))
    else if StartsAt(s, k, ">") then Some((k + 1, false))
    else None
  }

  datatype Attr = Attr(name: string, value: string)

  /** The end of an attribute value at k, and the value. */
  function AttrValue(s: string, k: nat): (r: Option<(nat, string)>)
    requires k <= |s|
    ensures r.Some? ==> k < r.value.0 <= |s|
  {
    if k < |s| && (s[k] == '"' || s[k] == '\'') then
      var q := [s[k]];
      var e := IndexOf(s, q, k + 1);
      if e.Some? then Some((Span(s, e.value + 1, c => c == s[k]), s[k + 1..e.value])) else None
    else
      var e := Span(s, k, IsValueChar);
      if e > k then Some((e, s[k..e])) else None
  }

  /** attribute: the end of the attribute, and the attribute as it is written. */
  function Attribute(s: string): (r: Option<(nat, Attr)>)
    ensures r.Some? ==> 0 < r.value.0 <= |s|
  {
    var k := Span(s, 0, IsSpace);
    var n := Span(s, k, IsAttrChar);
    if n == k then None
    else
      var q := Span(s, n, IsSpace);
      if q < |s| && s[q] == '=' then
        var v := AttrValue(s, Span(s, q + 1, IsSpace));
        if v.Some? then Some((v.value.0, Attr(s[k..n], v.value.1))) else Some((n, Attr(s[k..n], "")))
      else Some((n, Attr(s[k..n], "")))
  }

  /** decodeAttr; newlines is shouldDecodeNewlines. */
  function Decode(newlines: bool, s: string): string {
    if s == "" then ""
    else if StartsAt(s, 0, "&lt;") then "<" + Decode(newlines, s[4..])
    else if StartsAt(s, 0, "&gt;") then ">" + Decode(newlines, s[4..])
    else if StartsAt(s, 0, "&quot;") then "\"" + Decode(newlines, s[6..])
    else if StartsAt(s, 0, "&amp;") then "&" + Decode(newlines, s[5..])
    else if newlines && StartsAt(s, 0, "&#10;") then "\n" + Decode(newlines, s[5..])
    else [s[0]] + Decode(newlines, s[1..])
  }

  function DecodeAll(newlines: bool, attrs: seq<Attr>): (r: seq<Attr>)
    ensures |r| == |attrs|
  {
    seq(|attrs|, i requires 0 <= i < |attrs| => Attr(attrs[i].name, Decode(newlines, attrs[i].value)))
  }

  /** doctype */
  function Doctype(s: string): (r: Option<nat>)
    ensures r.Some? ==> 0 < r.value <= |s|
  {
    if !StartsAtAny(s, 0, "<!doctype ") then None
    else
      var g := IndexOf(s, ">", 10);
      if g.Some? && g.value > 10 then Some(g.value + 1) else None
  }

  /** The text and the end of the first closing tag of a raw text element. */
  function RawEnd(s: string, tag: string, from: nat): (r: Option<(nat, nat)>)
    requires from <= |s|
    ensures r.Some? ==> from <= r.value.0 < r.value.1 <= |s|
    decreases |s| - from
  {
    var g := IndexOf(s, ">", from + 2 + |tag|);
    if StartsAtAny(s, from, "</" + tag) && g.Some? then Some((from, g.value + 1))
    else if from < |s| then RawEnd(s, tag, from + 1)
    else None
  }

  /** A '<' that begins no token is text. */
  predicate TokenAt(s: string, k: nat)
    requires k <= |s|
  {
    EndTag(s[k..]).Some? || StartTagOpen(s[k..]).Some? || StartsAt(s, k, "<!--") || StartsAt(s, k, "<![")
  }

  // ---------- events ----------

  datatype Event = Start(tag: string, attrs: seq<Attr>, unary: bool) | End(tag: string) | Chars(text: string)

  /** The elements open after the events, or None when an end does not close the innermost open element. */
  function Play(es: seq<Event>): Option<seq<string>> {
    if es == [] then Some([])
    else
      var n := |es| - 1;
      var p := Play(es[..n]);
      if p.None? then None
      else match es[n]
        case Chars(_) => p
        case Start(tag, _, unary) => if unary then p else Some(p.value + [tag])
        case End(tag) =>
          var m := |p.value|;
          if m > 0 && p.value[m - 1] == tag then Some(p.value[..m - 1]) else None
  }

  lemma PlayStep(es: seq<Event>, e: Event, open: seq<string>)
    requires Play(es) == Some(open)
    ensures e.Chars? ==> Play(es + [e]) == Some(open)
    ensures e.Start? ==> Play(es + [e]) == Some(if e.unary then open else open + [e.tag])
    ensures e.End? && open != [] && open[|open| - 1] == e.tag ==> Play(es + [e]) == Some(open[..|open| - 1])
  {
    assert (es + [e])[..|es|] == es;
  }

  /** Every end matches a start: a balanced word with nothing left open. */
  predicate Balanced(es: seq<Event>) {
    Play(es) == Some([])
  }

  function Top(s: seq<string>): Option<string> {
    if s == [] then None else Some(s[|s| - 1])
  }

  /** The innermost open element of that name. */
  function Nearest(stack: seq<string>, name: string): (r: int)
    ensures -1 <= r < |stack|
    ensures r >= 0 ==> LowerAll(stack[r]) == name
    ensures forall i :: r < i < |stack| ==> LowerAll(stack[i]) != name
  {
    if stack == [] then -1
    else
      var n := |stack| - 1;
      if LowerAll(stack[n]) == name then n else Nearest(stack[..n], name)
  }

  lemma {:induction false} NearestIs(stack: seq<string>, name: string, pos: int)
    requires -1 <= pos < |stack| && (pos >= 0 ==> LowerAll(stack[pos]) == name)
    requires forall i :: pos < i < |stack| ==> LowerAll(stack[i]) != name
    ensures Nearest(stack, name) == pos
  {
    if pos < |stack| - 1 {
      NearestIs(stack[..|stack| - 1], name, pos);
    }
  }

  datatype Options = Options(expectHTML: bool, isUnaryTag: string -> bool, canBeLeftOpenTag: string -> bool,
                             isNonPhrasingTag: string -> bool, shouldDecodeNewlines: bool)

  predicate IsPlainText(tag: string) {
    LowerAll(tag) == "script" || LowerAll(tag) == "style" || LowerAll(tag) == "textarea"
  }

  predicate Shorter(s: string, t: string) {
    |s| < |t| || s == t
  }

  // ---------- what a template's events are ----------

  /** The open elements and the events after a tag. */
  datatype Effect = Effect(stack: seq<string>, events: seq<Event>)

  /** The ends that close everything from position pos on, innermost first. */
  function Ends(stack: seq<string>, pos: nat): seq<Event> {
    if |stack| <= pos then [] else [End(stack[|stack| - 1])] + Ends(stack[..|stack| - 1], pos)
  }

  /** An end tag closes up to the innermost open element of its name; br and p without one stand for a tag. */
  function CloseTag(stack: seq<string>, name: string): Effect {
    var pos := Nearest(stack, LowerAll(name));
    if pos >= 0 then Effect(stack[..pos], Ends(stack, pos))
    else if LowerAll(name) == "br" then Effect(stack, [Start(name, [], true)])
    else if LowerAll(name) == "p" then Effect(stack, [Start(name, [], false), End(name)])
    else Effect(stack, [])
  }

  /** What a start tag closes first: an open p before block content, then an open element that may be left open. */
  function Implied(opt: Options, stack: seq<string>, name: string): Effect {
    var a := if opt.expectHTML && Top(stack) == Some("p") && opt.isNonPhrasingTag(name)
             then CloseTag(stack, "p") else Effect(stack, []);
    if opt.expectHTML && opt.canBeLeftOpenTag(name) && Top(a.stack) == Some(name)
    then var b := CloseTag(a.stack, name); Effect(b.stack, a.events + b.events)
    else a
  }

  function OpenTag(opt: Options, stack: seq<string>, name: string, attrs: seq<Attr>, slash: bool): Effect {
    var e := Implied(opt, stack, name);
    var unary := opt.isUnaryTag(name) || (name == "html" && Top(e.stack) == Some("head")) || slash;
    Effect(if unary then e.stack else e.stack + [name],
           e.events + [Start(name, DecodeAll(opt.shouldDecodeNewlines, attrs), unary)])
  }

  /** The attributes from here on, as they are written, and the text after them. */
  datatype Attrs = Attrs(attrs: seq<Attr>, rest: string)

  function ReadAttrs(s: string): (r: Attrs)
    ensures |r.rest| <= |s|
    decreases |s|
  {
    if StartTagClose(s).None? && Attribute(s).Some? then
      var r := ReadAttrs(s[Attribute(s).value.0..]);
      Attrs([Attribute(s).value.1] + r.attrs, r.rest)
    else Attrs([], s)
  }

  /** A whole start tag: its name, its attributes, whether it has a slash, and the rest. */
  datatype Found = NotFound(rest: string) | Found(name: string, attrs: seq<Attr>, slash: bool, rest: string)

  function StartTag(s: string): (r: Found)
    ensures Shorter(r.rest, s) && (r.Found? ==> |r.rest| < |s|)
  {
    var open := StartTagOpen(s);
    if open.None? then NotFound(s)
    else
      var t := ReadAttrs(s[open.value..]);
      var close := StartTagClose(t.rest);
      if close.None? then NotFound(t.rest)
      else Found(s[1..open.value], t.attrs, close.value.1, t.rest[close.value.0..])
  }

  /** The rest of the text, the open elements and the events after a part of the template. */
  datatype Round = Round(done: bool, rest: string, stack: seq<string>, events: seq<Event>)

  function TagRound(opt: Options, s: string, stack: seq<string>): (r: Round)
    ensures Shorter(r.rest, s) && (r.done ==> |r.rest| < |s|) && (!r.done ==> r.stack == stack && r.events == [])
  {
    if StartsAt(s, 0, "<!--") && IndexOf(s, "-->", 0).Some?
    then Round(true, s[IndexOf(s, "-->", 0).value + 3..], stack, [])
    else if StartsAt(s, 0, "<![") && IndexOf(s, "]>", 0).Some?
    then Round(true, s[IndexOf(s, "]>", 0).value + 2..], stack, [])
    else if Doctype(s).Some? then Round(true, s[Doctype(s).value..], stack, [])
    else if EndTag(s).Some? then
      var e := CloseTag(stack, s[2..EndTag(s).value.0]);
      Round(true, s[EndTag(s).value.1..], e.stack, e.events)
    else
      match StartTag(s)
      case NotFound(rest) => Round(false, rest, stack, [])
      case Found(name, attrs, slash, rest) =>
        var e := OpenTag(opt, stack, name, attrs, slash);
        Round(true, rest, e.stack, e.events)
  }

  /** The end of the text from k on: the next '<' that begins a token, or the last '<'. */
  function TextEnd(s: string, k: nat): (e: nat)
    requires k <= |s|
    ensures k <= e <= |s|
    decreases |s| - k
  {
    if TokenAt(s, k) then k
    else var next := IndexOf(s, "<", k + 1); if next.None? then k else TextEnd(s, next.value)
  }

  function Said(text: string): seq<Event> {
    if text == "" then [] else [Chars(text)]
  }

  function TextRound(s: string, first: Option<nat>, stack: seq<string>): (r: Round)
    requires first.Some? ==> first.value <= |s|
    ensures Shorter(r.rest, s) && r.stack == stack
  {
    if first.None? then Round(true, "", stack, Said(s))
    else var e := TextEnd(s, first.value); Round(true, s[e..], stack, Said(s[..e]))
  }

  function RawRound(s: string, stack: seq<string>): (r: Round)
    requires stack != []
    ensures Shorter(r.rest, s)
  {
    var tag := LowerAll(stack[|stack| - 1]);
    var e := CloseTag(stack, tag);
    match RawEnd(s, tag, 0)
    case None => Round(true, s, e.stack, e.events)
    case Some(end) => Round(true, s[end.1..], e.stack, [Chars(s[..end.0])] + e.events)
  }

  /** One turn of the main loop. */
  function Turn(opt: Options, s: string, stack: seq<string>): (r: Round)
    ensures Shorter(r.rest, s)
  {
    if Top(stack).Some? && IsPlainText(Top(stack).value) then RawRound(s, stack)
    else
      var first := IndexOf(s, "<", 0);
      if first == Some(0) then
        var t := TagRound(opt, s, stack);
        if t.done then t
        else TextRound(t.rest, first, stack)
      else TextRound(s, first, stack)
  }

  /** The events of a template, with the given elements open before it. */
  function Scan(opt: Options, s: string, stack: seq<string>): seq<Event>
    decreases |s|
  {
    if s == "" then Ends(stack, 0)
    else
      var r := Turn(opt, s, stack);
      if r.rest == s then r.events + [Chars(s)] + Ends(r.stack, 0)
      else r.events + Scan(opt, r.rest, r.stack)
  }

  // ---------- the parser ----------

  /** stack and lastTag are parseHTML's; elements is the stack parse's callbacks keep. */
  class Parser {
    const options: Options
    var html: string
    var stack: seq<string>
    var lastTag: Option<string>
    var elements: seq<string>
    var events: seq<Event>

    /** The two stacks agree, lastTag is the top, and the events so far have opened exactly these elements. */
    predicate Valid()
      reads this
    {
      Play(events) == Some(stack) && elements == stack && lastTag == Top(stack)
    }

    constructor (options: Options, template: string)
      ensures Valid() && html == template && this.options == options && stack == [] && events == []
    {
      this.options, html := options, template;
      stack, lastTag, elements, events := [], None, [], [];
    }

    method Advance(n: nat)
      requires n <= |html|
      modifies this`html
      ensures html == old(html)[n..]
    {
      html := html[n..];
    }

    /** parse's start callback */
    method OnStart(tag: string, attrs: seq<Attr>, unary: bool)
      modifies this`elements, this`events
      ensures elements == (if unary then old(elements) else old(elements) + [tag])
      ensures events == old(events) + [Start(tag, attrs, unary)]
    {
      events := events + [Start(tag, attrs, unary)];
      if !unary {
        elements := elements + [tag];
      }
    }

    /** parse's end callback, which closes the last element whatever the tag: there must be one. */
    method OnEnd(tag: string)
      requires elements != []
      modifies this`elements, this`events
      ensures elements == old(elements)[..|old(elements)| - 1] && events == old(events) + [End(tag)]
    {
      events := events + [End(tag)];
      elements := elements[..|elements| - 1];
    }

    method OnChars(text: string)
      requires Valid()
      modifies this`events
      ensures Valid() && events == old(events) + [Chars(text)]
    {
      PlayStep(events, Chars(text), stack);
      events := events + [Chars(text)];
    }

    /** The closest open tag of that name, as parseEndTag looks for it. */
    method FindOpen(name: string) returns (pos: int)
      ensures pos == Nearest(stack, LowerAll(name))
    {
      hide LowerAll, Nearest;
      pos := |stack| - 1;
      while pos >= 0 && LowerAll(stack[pos]) != LowerAll(name)
        invariant -1 <= pos < |stack|
        invariant forall i :: pos < i < |stack| ==> LowerAll(stack[i]) != LowerAll(name)
      {
        pos := pos - 1;
      }
      NearestIs(stack, LowerAll(name), pos);
    }

    /** Closes all the open elements down to position pos. */
    method CloseTo(pos: nat)
      requires Valid() && pos <= |stack|
      modifies this`stack, this`lastTag, this`elements, this`events
      ensures Valid() && stack == old(stack)[..pos] && events == old(events) + Ends(old(stack), pos)
    {
      hide Play;
      var i := |stack| - 1;
      assert stack[..i + 1] == stack;
      while i >= pos
        invariant pos - 1 <= i < |stack| && stack == old(stack)
        invariant elements == stack[..i + 1] && Play(events) == Some(elements)
        invariant events + Ends(stack[..i + 1], pos) == old(events) + Ends(stack, pos)
      {
        PlayStep(events, End(stack[i]), elements);
        EndsStep(stack, i, pos);
        OnEnd(stack[i]);
        i := i - 1;
      }
      stack := stack[..pos];
      lastTag := if pos > 0 then Some(stack[pos - 1]) else None;
    }

    /** parseEndTag with a name. */
    method ParseEndTag(name: string)
      requires Valid()
      modifies this`stack, this`lastTag, this`elements, this`events
      ensures Valid() && stack == CloseTag(old(stack), name).stack
      ensures events == old(events) + CloseTag(old(stack), name).events
    {
      hide Play, LowerAll, Nearest, Ends;
      var pos := FindOpen(name);
      if pos >= 0 {
        CloseTo(pos);
      } else if LowerAll(name) == "br" {
        PlayStep(events, Start(name, [], true), stack);
        OnStart(name, [], true);
      } else if LowerAll(name) == "p" {
        PlayStep(events, Start(name, [], false), stack);
        OnStart(name, [], false);
        PlayStep(events, End(name), elements);
        OnEnd(name);
      }
    }

    /** parseStartTag, which may use up text even when there is no start tag. */
    method ParseStartTag() returns (m: Option<(string, seq<Attr>, bool)>)
      modifies this`html
      ensures match StartTag(old(html))
              case NotFound(rest) => m.None? && html == rest
              case Found(name, attrs, slash, rest) => m == Some((name, attrs, slash)) && html == rest
    {
      hide StartTagOpen, StartTagClose, Attribute;
      var open := StartTagOpen(html);
      if open.None? {
        return None;
      }
      var (name, attrs: seq<Attr>) := (html[1..open.value], []);
      Advance(open.value);
      while StartTagClose(html).None? && Attribute(html).Some?
        invariant Attrs(attrs + ReadAttrs(html).attrs, ReadAttrs(html).rest) == ReadAttrs(old(html)[open.value..])
        decreases |html|
      {
        var (n, attr) := Attribute(html).value;
        Advance(n);
        Assoc(attrs, [attr], ReadAttrs(html).attrs);
        attrs := attrs + [attr];
      }
      assert attrs + [] == attrs;
      var close := StartTagClose(html);
      if close.None? {
        return None;
      }
      Advance(close.value.0);
      return Some((name, attrs, close.value.1));
    }

    method CloseImplied(name: string)
      requires Valid()
      modifies this`stack, this`lastTag, this`elements, this`events
      ensures var e := Implied(options, old(stack), name);
              Valid() && stack == e.stack && events == old(events) + e.events
    {
      hide Play, CloseTag;
      if options.expectHTML {
        if lastTag == Some("p") && options.isNonPhrasingTag(name) {
          ParseEndTag(lastTag.value);
        }
        if options.canBeLeftOpenTag(name) && lastTag == Some(name) {
          ParseEndTag(name);
        }
      }
    }

    /** handleStartTag */
    method HandleStartTag(name: string, written: seq<Attr>, slash: bool)
      requires Valid()
      modifies this`stack, this`lastTag, this`elements, this`events
      ensures var e := OpenTag(options, old(stack), name, written, slash);
              Valid() && stack == e.stack && events == old(events) + e.events
    {
      hide Play, Implied, Decode;
      CloseImplied(name);
      var unary := options.isUnaryTag(name) || (name == "html" && lastTag == Some("head")) || slash;
      var attrs := [];
      for i := 0 to |written|
        modifies {}
        invariant attrs == DecodeAll(options.shouldDecodeNewlines, written[..i])
      {
        attrs := attrs + [Attr(written[i].name, Decode(options.shouldDecodeNewlines, written[i].value))];
      }
      assert written[..|written|] == written;
      PlayStep(events, Start(name, attrs, unary), stack);
      assert Top(stack + [name]) == Some(name);
      if !unary {
        stack := stack + [name];
        lastTag := Some(name);
      }
      OnStart(name, attrs, unary);
    }

    /** One token at a '<', or false when there is none. */
    method Tag() returns (done: bool)
      requires Valid()
      modifies this`html, this`stack, this`lastTag, this`elements, this`events
      ensures Valid()
      ensures var r := TagRound(options, old(html), old(stack));
              done == r.done && html == r.rest && stack == r.stack && events == old(events) + r.events
    {
      hide Play, Doctype, EndTag, StartTag, IndexOf, CloseTag, OpenTag;
      var end := IndexOf(html, "-->", 0);
      if StartsAt(html, 0, "<!--") && end.Some? {
        Advance(end.value + 3);
        return true;
      }
      end := IndexOf(html, "]>", 0);
      if StartsAt(html, 0, "<![") && end.Some? {
        Advance(end.value + 2);
        return true;
      }
      var doctype := Doctype(html);
      if doctype.Some? {
        Advance(doctype.value);
        return true;
      }
      var close := EndTag(html);
      if close.Some? {
        var name := html[2..close.value.0];
        Advance(close.value.1);
        ParseEndTag(name);
        return true;
      }
      var open := ParseStartTag();
      if open.Some? {
        HandleStartTag(open.value.0, open.value.1, open.value.2);
      }
      return open.Some?;
    }

    /** Text up to the next token, or to the end. */
    method Text(first: Option<nat>)
      requires Valid() && (first.Some? ==> first.value <= |html|)
      modifies this`html, this`events
      ensures var r := TextRound(old(html), first, stack); Valid() && html == r.rest && events == old(events) + r.events
    {
      hide Play, TokenAt, IndexOf;
      var text := html;
      if first.Some? {
        var textEnd := first.value;
        while !TokenAt(html, textEnd)
          invariant first.value <= textEnd <= |html| && html == old(html)
                    && TextEnd(html, textEnd) == TextEnd(html, first.value)
          decreases |html| - textEnd
        {
          var next := IndexOf(html, "<", textEnd + 1);
          if next.None? {
            break;
          }
          textEnd := next.value;
        }
        text := html[..textEnd];
        Advance(textEnd);
      } else {
        html := "";
      }
      if text != "" {
        OnChars(text);
      }
    }

    /** The content of a script, style or textarea element, up to its closing tag. */
    method RawText()
      requires Valid() && stack != []
      modifies this`html, this`stack, this`lastTag, this`elements, this`events
      ensures var r := RawRound(old(html), old(stack));
              Valid() && html == r.rest && stack == r.stack && events == old(events) + r.events
    {
      hide Play, LowerAll, RawEnd, CloseTag;
      var tag := LowerAll(lastTag.value);
      var end := RawEnd(html, tag, 0);
      if end.Some? {
        var text := html[..end.value.0];
        Advance(end.value.1);
        OnChars(text);
      }
      ParseEndTag(tag);
    }

    /** One turn of the main loop. */
    method Next()
      requires Valid()
      modifies this`html, this`stack, this`lastTag, this`elements, this`events
      ensures var r := Turn(options, old(html), old(stack));
              Valid() && html == r.rest && stack == r.stack && events == old(events) + r.events
    {
      hide Play, LowerAll, IndexOf, TagRound, TextRound, RawRound;
      if lastTag.None? || !IsPlainText(lastTag.value) {
        var textEnd := IndexOf(html, "<", 0);
        var done := false;
        if textEnd == Some(0) {
          done := Tag();
        }
        if !done {
          Text(textEnd);
        }
      } else {
        RawText();
      }
    }

    /**
     parseHTML.  For every template: the loop ends, since each turn shortens the text or stops; every callback
     that closes an element finds one open; the events are those of Scan and form a balanced word.
     */
    method Parse()
      requires Valid()
      modifies this`html, this`stack, this`lastTag, this`elements, this`events
      ensures Valid() && stack == [] && Balanced(events)
      ensures events == old(events) + Scan(options, old(html), old(stack))
    {
      hide Play, Turn, Ends;
      var stopped := false;
      while html != "" && !stopped
        invariant Valid()
        invariant events + (if stopped then Ends(stack, 0) else Scan(options, html, stack)) ==
                  old(events) + Scan(options, old(html), old(stack))
        decreases |html|, !stopped
      {
        var last := html;
        ghost var r := Turn(options, html, stack);
        Next();
        if html == last {
          OnChars(html);
          stopped := true;
        }
      }
      CloseTo(0);
    }
  }

  lemma EndsStep(stack: seq<string>, i: nat, pos: nat)
    requires pos <= i < |stack|
    ensures Ends(stack[..i + 1], pos) == [End(stack[i])] + Ends(stack[..i], pos)
  {
    assert stack[..i + 1][..i] == stack[..i];
  }

  // ---------- reading back what was written ----------

  datatype Tree = Leaf(text: string) | Elem(tag: string, attrs: seq<Attr>, kids: seq<Tree>)

  /** A character of an attribute value, written so that decodeAttr gives it back. */
  function EncodeChar(c: char): string {
    match c
    case '<' => "&lt;"
    case '>' => "&gt;"
    case '"' => "&quot;"
    case '&' => "&amp;"
    case _ => [c]
  }

  function Encode(s: string): string {
    if s == "" then "" else EncodeChar(s[0]) + Encode(s[1..])
  }

  function WriteAttr(a: Attr): string {
    " " + a.name + "=\"" + Encode(a.value) + "\""
  }

  function WriteAttrs(attrs: seq<Attr>): string {
    if attrs == [] then "" else WriteAttr(attrs[0]) + WriteAttrs(attrs[1..])
  }

  function Write(t: Tree): string {
    match t
    case Leaf(text) => text
    case Elem(tag, attrs, kids) => "<" + tag + WriteAttrs(attrs) + ">" + WriteAll(kids) + "</" + tag + ">"
  }

  function WriteAll(ts: seq<Tree>): string {
    if ts == [] then "" else Write(ts[0]) + WriteAll(ts[1..])
  }

  function EventsOf(t: Tree): seq<Event> {
    match t
    case Leaf(text) => [Chars(text)]
    case Elem(tag, attrs, kids) => [Start(tag, attrs, false)] + EventsOfAll(kids) + [End(tag)]
  }

  function EventsOfAll(ts: seq<Tree>): seq<Event> {
    if ts == [] then [] else EventsOf(ts[0]) + EventsOfAll(ts[1..])
  }

  /** A tag name with no special treatment. */
  predicate PlainTag(opt: Options, tag: string) {
    && tag != "" && IsLetter(tag[0]) && (forall i :: 0 <= i < |tag| ==> IsNameChar(tag[i]))
    && !opt.isUnaryTag(tag) && !opt.canBeLeftOpenTag(tag) && !IsPlainText(tag) && tag != "p" && tag != "html"
  }

  predicate AttrNames(attrs: seq<Attr>) {
    forall i :: 0 <= i < |attrs| ==> AttrName(attrs[i].name)
  }

  predicate AttrName(name: string) {
    name != "" && forall i :: 0 <= i < |name| ==> IsAttrChar(name[i])
  }

  /** Text without '<', and elements with plain tags, whatever attributes, and no two texts side by side. */
  predicate Writable(opt: Options, t: Tree) {
    match t
    case Leaf(text) => text != "" && '<' !in text
    case Elem(tag, attrs, kids) => PlainTag(opt, tag) && AttrNames(attrs) && WritableAll(opt, kids)
  }

  predicate WritableAll(opt: Options, ts: seq<Tree>) {
    ts != [] ==> Writable(opt, ts[0]) && WritableAll(opt, ts[1..]) && (|ts| > 1 ==> ts[0].Elem? || ts[1].Elem?)
  }

  lemma SpanIs(s: string, k: nat, p: char -> bool, e: nat)
    requires k <= e <= |s| && (forall i :: k <= i < e ==> p(s[i])) && (e < |s| ==> !p(s[e]))
    ensures Span(s, k, p) == e
    decreases e - k
  {
  }

  /** A name followed by '>' or a blank is read as that name. */
  lemma NameRead(s: string, k: nat, tag: string)
    requires StartsAt(s, k, tag) && k + |tag| < |s| && (s[k + |tag|] == '>' || s[k + |tag|] == ' ')
    requires tag != "" && IsLetter(tag[0]) && (forall i :: 0 <= i < |tag| ==> IsNameChar(tag[i]))
    ensures QName(s, k) == Some(k + |tag|)
  {
    forall i | k <= i < k + |tag|
      ensures s[i] == tag[i - k]
    {
      assert s[i] == s[k..k + |tag|][i - k];
    }
    SpanIs(s, k + 1, IsNameChar, k + |tag|);
  }

  /** The open elements all have plain tags. */
  predicate Calm(opt: Options, stack: seq<string>) {
    forall i :: 0 <= i < |stack| ==> PlainTag(opt, stack[i])
  }

  /** Nothing, or something that begins with a token. */
  predicate TokenFirst(s: string) {
    s == "" || (s[0] == '<' && TokenAt(s, 0))
  }

  /** What does not begin with "<!" is no comment or doctype. */
  lemma NoBang(s: string)
    requires |s| > 1 && s[1] != '!'
    ensures Doctype(s).None? && !StartsAt(s, 0, "<!--") && !StartsAt(s, 0, "<![")
  {
    hide IndexOf;
    assert |s| >= 4 ==> s[0..4][1] == s[1];
    assert |s| >= 3 ==> s[0..3][1] == s[1];
    if |s| >= 10 {
      assert LowerAll(s[0..10])[1] == Lower(s[1]);
      assert LowerAll("<!doctype ")[1] == '!';
    }
  }

  lemma TagEnds(t: string, rest: string)
    requires t == ">" + rest
    ensures StartTagClose(t) == Some((1, false)) && t[1..] == rest
  {
    SpanIs(t, 0, IsSpace, 0);
    assert t[0..1] == ">";
    assert |t| >= 2 ==> t[0..2][0] == '>';
  }

  /** What decodeAttr makes of an encoded value is the value, whatever it is. */
  lemma {:induction false} DecodeEncode(newlines: bool, v: string)
    ensures Decode(newlines, Encode(v)) == v
  {
    if v != "" {
      DecodeEncode(newlines, v[1..]);
      DecodeChar(newlines, v[0], Encode(v[1..]));
    }
  }

  lemma DecodeChar(newlines: bool, c: char, rest: string)
    ensures Decode(newlines, EncodeChar(c) + rest) == [c] + Decode(newlines, rest)
  {
    var s := EncodeChar(c) + rest;
    assert s[|EncodeChar(c)|..] == rest && s[0..|EncodeChar(c)|] == EncodeChar(c);
    assert |s| >= 4 ==> s[0..4][0] == s[0] && s[0..4][1] == s[1];
    assert |s| >= 5 ==> s[0..5][0] == s[0] && s[0..5][1] == s[1];
    assert |s| >= 6 ==> s[0..6][0] == s[0] && s[0..6][1] == s[1];
  }

  lemma {:induction false} EncodedQuoteless(v: string)
    ensures '"' !in Encode(v)
  {
    if v != "" {
      EncodedQuoteless(v[1..]);
    }
  }

  /** Where the parts of a written attribute stand. */
  lemma AttrPlaces(s: string, name: string, v: string, rest: string)
    requires s == " " + name + "=\"" + v + "\"" + rest && rest != ""
    ensures var n := 1 + |name|;
            && |s| > n + 3 + |v| && s[0] == ' ' && s[1..n] == name && s[n] == '=' && s[n + 1] == '"'
            && s[n + 2..n + 2 + |v|] == v && s[n + 2 + |v|] == '"' && s[n + 3 + |v|] == rest[0]
            && forall i :: 1 <= i < n ==> s[i] == name[i - 1]
  {
    var (n, m) := (1 + |name|, 3 + |name| + |v|);
    assert s[1..n] == name;
    assert s[n + 2..m] == v;
  }

  /** One attribute and what follows it. */
  lemma AttrRead(s: string, a: Attr, rest: string)
    requires s == WriteAttr(a) + rest && AttrName(a.name) && rest != "" && rest[0] != '"'
    ensures StartTagClose(s).None? && Attribute(s) == Some((|WriteAttr(a)|, Attr(a.name, Encode(a.value))))
  {
    var (n, v) := (1 + |a.name|, Encode(a.value));
    hide IndexOf, Encode, IsSpace, IsAttrChar, AttrName, StartTagClose, AttrValue, Span, Attribute;
    EncodedQuoteless(a.value);
    NameChars(a.name);
    AttrPlaces(s, a.name, v, rest);
    SpanIs(s, 0, IsSpace, 1);
    SpanIs(s, 1, IsAttrChar, n);
    SpanIs(s, n, IsSpace, n);
    SpanIs(s, n + 1, IsSpace, n + 1);
    NoClose(s);
    QuotedRead(s, n + 1, v);
    AttrFound(s, n, v);
  }

  lemma AttrFound(s: string, n: nat, v: string)
    requires 1 < n < n + 3 + |v| < |s| && s[n] == '='
    requires Span(s, 0, IsSpace) == 1 && Span(s, 1, IsAttrChar) == n && Span(s, n, IsSpace) == n
    requires Span(s, n + 1, IsSpace) == n + 1 && AttrValue(s, n + 1) == Some((n + 3 + |v|, v))
    ensures Attribute(s) == Some((n + 3 + |v|, Attr(s[1..n], v)))
  {
    hide AttrValue, Span, IsSpace, IsAttrChar;
  }

  /** What the classes say of the characters of a written attribute. */
  lemma NameChars(name: string)
    requires AttrName(name)
    ensures IsSpace(' ') && !IsSpace('=') && !IsSpace('"') && !IsAttrChar('=') && name != ""
    ensures forall i :: 0 <= i < |name| ==> IsAttrChar(name[i]) && !IsSpace(name[i]) && name[i] != '/' && name[i] != '>'
  {
  }

  lemma NoClose(s: string)
    requires |s| > 1 && Span(s, 0, IsSpace) == 1 && s[1] != '/' && s[1] != '>'
    ensures StartTagClose(s).None?
  {
    assert |s| >= 3 ==> s[1..3][0] == s[1];
    assert s[1..2][0] == s[1];
  }

  lemma QuotedRead(s: string, k: nat, v: string)
    requires k + 2 + |v| < |s| && s[k] == '"' && s[k + 1..k + 1 + |v|] == v && '"' !in v
    requires s[k + 1 + |v|] == '"' && s[k + 2 + |v|] != '"'
    ensures AttrValue(s, k) == Some((k + 2 + |v|, v))
  {
    hide IndexOf;
    var e := k + 1 + |v|;
    forall j | k + 1 <= j < e
      ensures !StartsAt(s, j, "\"")
    {
      assert s[j] == s[k + 1..e][j - k - 1] && s[j..j + 1][0] == s[j];
    }
    assert s[e..e + 1] == "\"";
    assert "\"" == [s[k]];
    IndexIs(s, "\"", k + 1, e);
    SpanIs(s, e + 1, c => c == s[k], e + 1);
  }

  /** The attributes as they are written. */
  function Coded(attrs: seq<Attr>): (r: seq<Attr>)
    ensures |r| == |attrs|
  {
    seq(|attrs|, i requires 0 <= i < |attrs| => Attr(attrs[i].name, Encode(attrs[i].value)))
  }

  lemma DecodeCoded(newlines: bool, attrs: seq<Attr>)
    ensures DecodeAll(newlines, Coded(attrs)) == attrs
  {
    forall i | 0 <= i < |attrs|
      ensures DecodeAll(newlines, Coded(attrs))[i] == attrs[i]
    {
      DecodeEncode(newlines, attrs[i].value);
    }
  }

  lemma {:induction false} AttrsRead(attrs: seq<Attr>, rest: string)
    requires AttrNames(attrs)
    ensures ReadAttrs(WriteAttrs(attrs) + (">" + rest)) == Attrs(Coded(attrs), ">" + rest)
  {
    hide Attribute, StartTagClose, WriteAttr, AttrName, Encode;
    var end := ">" + rest;
    if attrs == [] {
      TagEnds(end, rest);
      assert WriteAttrs(attrs) + end == end;
    } else {
      AttrsRead(attrs[1..], rest);
      var tail := WriteAttrs(attrs[1..]) + end;
      var s := WriteAttr(attrs[0]) + tail;
      Assoc(WriteAttr(attrs[0]), WriteAttrs(attrs[1..]), end);
      TailFirst(attrs[1..], rest);
      AttrRead(s, attrs[0], tail);
      assert s[|WriteAttr(attrs[0])|..] == tail;
      assert Coded(attrs) == [Attr(attrs[0].name, Encode(attrs[0].value))] + Coded(attrs[1..]);
    }
  }

  /** After a name or an attribute comes '>' or a blank. */
  lemma TailFirst(attrs: seq<Attr>, rest: string)
    ensures var t := WriteAttrs(attrs) + (">" + rest); t != "" && (t[0] == '>' || t[0] == ' ')
  {
  }

  lemma StartTagRead(s: string, tag: string, attrs: seq<Attr>, rest: string)
    requires s == "<" + tag + (WriteAttrs(attrs) + (">" + rest)) && AttrNames(attrs)
    requires tag != "" && IsLetter(tag[0]) && (forall i :: 0 <= i < |tag| ==> IsNameChar(tag[i]))
    ensures StartTagOpen(s) == Some(1 + |tag|) && StartTag(s) == Found(tag, Coded(attrs), false, rest)
            && EndTag(s).None?
    ensures Doctype(s).None? && !StartsAt(s, 0, "<!--") && !StartsAt(s, 0, "<![")
  {
    hide QName, StartTagClose, Attribute, Doctype, IndexOf, ReadAttrs, WriteAttrs, Coded, AttrNames;
    var (n, t) := (1 + |tag|, WriteAttrs(attrs) + (">" + rest));
    TailFirst(attrs, rest);
    assert s[1] == tag[0] && s[1..n] == tag && s[n] == t[0] && s[0..1] == "<" && s[0..2][1] == tag[0];
    NameRead(s, 1, tag);
    assert s[n..] == t;
    AttrsRead(attrs, rest);
    TagEnds(">" + rest, rest);
    NoBang(s);
  }

  lemma EndTagRead(s: string, tag: string, rest: string)
    requires s == "</" + tag + ">" + rest
    requires tag != "" && IsLetter(tag[0]) && (forall i :: 0 <= i < |tag| ==> IsNameChar(tag[i]))
    ensures EndTag(s) == Some((2 + |tag|, 3 + |tag|)) && s[2..2 + |tag|] == tag && s[3 + |tag|..] == rest
    ensures Doctype(s).None? && !StartsAt(s, 0, "<!--") && !StartsAt(s, 0, "<![")
  {
    hide QName, Doctype;
    var n := 2 + |tag|;
    assert s[2..n] == tag && s[n] == '>' && s[0..2] == "</" && s[n..n + 1] == ">" && s[1] == '/';
    NameRead(s, 2, tag);
    assert StartsAt(s, n, ">");
    NoBang(s);
  }

  lemma OpenTurn(opt: Options, s: string, tag: string, attrs: seq<Attr>, rest: string, stack: seq<string>)
    requires s == "<" + tag + (WriteAttrs(attrs) + (">" + rest)) && AttrNames(attrs) && PlainTag(opt, tag)
             && Calm(opt, stack)
    ensures Scan(opt, s, stack) == [Start(tag, attrs, false)] + Scan(opt, rest, stack + [tag])
  {
    hide StartTag, EndTag, Doctype, StartTagOpen, LowerAll, IsLetter, IsNameChar, DecodeAll, Coded, WriteAttrs,
        AttrNames;
    TagLetters(opt, tag);
    StartTagRead(s, tag, attrs, rest);
    DecodeCoded(opt.shouldDecodeNewlines, attrs);
    assert s[0..1] == "<" && StartsAt(s, 0, "<");
    assert OpenTag(opt, stack, tag, Coded(attrs), false) == Effect(stack + [tag], [Start(tag, attrs, false)]);
    assert Turn(opt, s, stack) == Round(true, rest, stack + [tag], [Start(tag, attrs, false)]);
  }

  lemma TagLetters(opt: Options, tag: string)
    requires PlainTag(opt, tag)
    ensures tag != "" && IsLetter(tag[0]) && (forall i :: 0 <= i < |tag| ==> IsNameChar(tag[i]))
  {
  }

  lemma CloseTurn(opt: Options, s: string, tag: string, rest: string, stack: seq<string>)
    requires s == "</" + tag + ">" + rest && PlainTag(opt, tag) && Calm(opt, stack)
    ensures Scan(opt, s, stack + [tag]) == [End(tag)] + Scan(opt, rest, stack)
  {
    hide EndTag, Doctype, LowerAll, IsLetter, IsNameChar;
    EndTagRead(s, tag, rest);
    assert s[0..1] == "<" && StartsAt(s, 0, "<");
    var all := stack + [tag];
    assert all[..|stack|] == stack;
    assert Ends(stack, |stack|) == [] && Ends(all, |stack|) == [End(tag)];
    assert CloseTag(all, tag) == Effect(stack, [End(tag)]);
    assert Turn(opt, s, all) == Round(true, rest, stack, [End(tag)]);
  }

  lemma {:induction false} FirstLess(s: string, from: nat, n: nat)
    requires from <= n <= |s| && (forall k :: from <= k < n ==> s[k] != '<') && (n < |s| ==> s[n] == '<')
    ensures IndexOf(s, "<", from) == if n < |s| then Some(n) else None
    decreases n - from
  {
    if from < |s| {
      assert s[from..from + 1] == [s[from]];
    }
    if from < n {
      FirstLess(s, from + 1, n);
    }
  }

  lemma TextTurn(opt: Options, s: string, text: string, rest: string, stack: seq<string>)
    requires s == text + rest && text != "" && '<' !in text && TokenFirst(rest) && Calm(opt, stack)
    ensures Scan(opt, s, stack) == [Chars(text)] + Scan(opt, rest, stack)
  {
    hide EndTag, StartTagOpen, LowerAll, IsLetter, IsNameChar;
    var n := |text|;
    var first := IndexOf(s, "<", 0);
    assert forall k :: 0 <= k < n ==> s[k] == text[k] && text[k] in text;
    assert s[..n] == text && s[n..] == rest;
    FirstLess(s, 0, n);
    if rest == "" {
      assert s == text;
    } else {
      TokenShift(text, rest);
    }
    assert Turn(opt, s, stack) == Round(true, rest, stack, [Chars(text)]);
  }

  lemma TokenShift(text: string, rest: string)
    requires TokenAt(rest, 0)
    ensures TokenAt(text + rest, |text|)
  {
    var (s, n) := (text + rest, |text|);
    assert s[n..] == rest && rest[0..] == rest;
    if StartsAt(rest, 0, "<!--") {
      assert s[n..n + 4] == rest[0..4];
    }
    if StartsAt(rest, 0, "<![") {
      assert s[n..n + 3] == rest[0..3];
    }
  }

  /** A written element, or its end tag, begins with a token. */
  lemma WrittenFirst(opt: Options, tag: string, attrs: seq<Attr>, rest: string)
    requires PlainTag(opt, tag) && AttrNames(attrs)
    ensures TokenFirst("<" + tag + (WriteAttrs(attrs) + (">" + rest))) && TokenFirst("</" + tag + ">" + rest)
  {
    hide WriteAttrs, AttrNames;
    var (a, b) := ("<" + tag + (WriteAttrs(attrs) + (">" + rest)), "</" + tag + ">" + rest);
    StartTagRead(a, tag, attrs, rest);
    EndTagRead(b, tag, rest);
    assert a[0..] == a && b[0..] == b;
  }

  lemma {:induction false} ReadBack(opt: Options, t: Tree, rest: string, stack: seq<string>)
    requires Writable(opt, t) && Calm(opt, stack) && (t.Leaf? ==> TokenFirst(rest))
    ensures Scan(opt, Write(t) + rest, stack) == EventsOf(t) + Scan(opt, rest, stack)
    decreases t, 1
  {
    hide Scan, PlainTag, TokenFirst, WriteAttrs, AttrNames;
    match t
    case Leaf(text) => TextTurn(opt, text + rest, text, rest, stack);
    case Elem(tag, attrs, kids) =>
      var end := "</" + tag + ">" + rest;
      var inner := WriteAll(kids) + end;
      Regroup(tag, WriteAttrs(attrs), WriteAll(kids), rest);
      OpenTurn(opt, Write(t) + rest, tag, attrs, inner, stack);
      WrittenFirst(opt, tag, attrs, rest);
      ReadBackAll(opt, kids, end, stack + [tag]);
      CloseTurn(opt, end, tag, rest, stack);
  }

  lemma Regroup(tag: string, a: string, k: string, rest: string)
    ensures "<" + tag + a + ">" + k + "</" + tag + ">" + rest ==
            "<" + tag + (a + (">" + (k + ("</" + tag + ">" + rest))))
  {
  }

  lemma ElementFirst(opt: Options, ts: seq<Tree>, rest: string)
    requires WritableAll(opt, ts) && TokenFirst(rest) && (ts != [] ==> ts[0].Elem?)
    ensures TokenFirst(WriteAll(ts) + rest)
  {
    hide PlainTag, TokenFirst, TokenAt, WriteAttrs, AttrNames;
    if ts == [] {
      assert WriteAll(ts) + rest == rest;
    } else {
      var (k, more) := (WriteAll(ts[0].kids), WriteAll(ts[1..]) + rest);
      Assoc(Write(ts[0]), WriteAll(ts[1..]), rest);
      Regroup(ts[0].tag, WriteAttrs(ts[0].attrs), k, more);
      WrittenFirst(opt, ts[0].tag, ts[0].attrs, k + ("</" + ts[0].tag + ">" + more));
    }
  }

  lemma Assoc<T>(a: seq<T>, b: seq<T>, c: seq<T>)
    ensures (a + b) + c == a + (b + c)
  {
  }

  lemma {:induction false} ReadBackAll(opt: Options, ts: seq<Tree>, rest: string, stack: seq<string>)
    requires WritableAll(opt, ts) && Calm(opt, stack) && TokenFirst(rest)
    ensures Scan(opt, WriteAll(ts) + rest, stack) == EventsOfAll(ts) + Scan(opt, rest, stack)
    decreases ts, 0
  {
    hide Scan, Calm, TokenFirst, TokenAt, Write, EventsOf, Writable;
    if ts == [] {
      assert WriteAll(ts) + rest == rest;
    } else {
      var (tail, first) := (ts[1..], ts[0]);
      if first.Leaf? {
        assert |ts| > 1 ==> tail[0] == ts[1];
        ElementFirst(opt, tail, rest);
      }
      ReadBack(opt, first, WriteAll(tail) + rest, stack);
      ReadBackAll(opt, tail, rest, stack);
      Assoc(Write(first), WriteAll(tail), rest);
      Assoc(EventsOf(first), EventsOfAll(tail), Scan(opt, rest, stack));
    }
  }

  /** Reading a written element back gives its own events: the tokenizer recovers every such tree. */
  lemma RoundTrip(opt: Options, t: Tree)
    requires Writable(opt, t)
    ensures Scan(opt, Write(t), []) == EventsOf(t)
  {
    ReadBack(opt, t, "", []);
    assert Write(t) + "" == Write(t);
    assert Scan(opt, "", []) == [];
  }

  // ---------- comments and raw text ----------

  lemma {:induction false} IndexIs(s: string, t: string, from: nat, n: nat)
    requires from <= n && StartsAt(s, n, t) && forall k :: from <= k < n ==> !StartsAt(s, k, t)
    ensures IndexOf(s, t, from) == Some(n)
    decreases n - from
  {
    if from < n {
      IndexIs(s, t, from + 1, n);
    }
  }

  /** A comment, up to the first "-->", leaves no event. */
  lemma CommentSkipped(opt: Options, s: string, end: nat, stack: seq<string>)
    requires StartsAt(s, 0, "<!--") && StartsAt(s, end, "-->") && (forall k :: 0 <= k < end ==> !StartsAt(s, k, "-->"))
    requires stack == [] || !IsPlainText(stack[|stack| - 1])
    ensures Scan(opt, s, stack) == Scan(opt, s[end + 3..], stack)
  {
    hide IndexOf;
    IndexIs(s, "-->", 0, end);
    assert s[0..1] == s[0..4][0..1] == "<";
    IndexIs(s, "<", 0, 0);
    assert Turn(opt, s, stack) == Round(true, s[end + 3..], stack, []);
  }

  lemma {:induction false} RawEndIs(s: string, tag: string, from: nat, n: nat, g: nat)
    requires from <= n && n + 2 + |tag| <= g && StartsAt(s, g, ">") && StartsAtAny(s, n, "</" + tag)
    requires forall k :: n + 2 + |tag| <= k < g ==> !StartsAt(s, k, ">")
    requires forall k :: from <= k < n ==> !StartsAtAny(s, k, "</" + tag)
    ensures RawEnd(s, tag, from) == Some((n, g + 1))
    decreases n - from
  {
    if from == n {
      IndexIs(s, ">", n + 2 + |tag|, g);
    } else {
      RawEndIs(s, tag, from + 1, n, g);
    }
  }

  /** Whatever stands in a script, style or textarea before its end tag is one text, tags and comments included. */
  lemma RawTextVerbatim(opt: Options, s: string, tag: string, n: nat, g: nat, stack: seq<string>)
    requires IsPlainText(tag) && n + 2 + |tag| <= g && StartsAt(s, g, ">") && StartsAtAny(s, n, "</" + LowerAll(tag))
    requires forall k :: n + 2 + |tag| <= k < g ==> !StartsAt(s, k, ">")
    requires forall k :: 0 <= k < n ==> !StartsAtAny(s, k, "</" + LowerAll(tag))
    ensures Scan(opt, s, stack + [tag]) == [Chars(s[..n]), End(tag)] + Scan(opt, s[g + 1..], stack)
  {
    hide IndexOf, RawEnd, StartsAtAny, LowerAll, CloseTag, TagRound, TextRound;
    var all := stack + [tag];
    RawEndIs(s, LowerAll(tag), 0, n, g);
    CloseTop(stack, tag);
    assert Turn(opt, s, all) == Round(true, s[g + 1..], stack, [Chars(s[..n])] + [End(tag)]);
  }

  /** A name in any case closes the innermost element. */
  lemma CloseTop(stack: seq<string>, tag: string)
    ensures CloseTag(stack + [tag], LowerAll(tag)) == Effect(stack, [End(tag)])
  {
    hide LowerAll, Nearest;
    var all := stack + [tag];
    LowerTwice(tag);
    assert all[..|stack|] == stack;
    NearestIs(all, LowerAll(LowerAll(tag)), |stack|);
    assert Ends(stack, |stack|) == [] && Ends(all, |stack|) == [End(tag)];
  }

  lemma LowerTwice(s: string)
    ensures LowerAll(LowerAll(s)) == LowerAll(s)
  {
  }
}
