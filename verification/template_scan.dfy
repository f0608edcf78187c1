/** Splitting template text into plain text and {{ }} expressions, and writing any such list of segments back
    as text that splits into exactly them. */
module TemplateScan {
  import opened ChannelGraph

  datatype Segment = Text(text: string) | Expr(text: string)

  /** A text starts with two opening braces. */
  predicate Opens(t: string) {
    |t| >= 2 && t[0] == '{' && t[1] == '{'
  }

  predicate Closes(t: string) {
    |t| >= 2 && t[0] == '}' && t[1] == '}'
  }

  predicate ThreeOf(t: string, c: char) {
    |t| >= 3 && t[0] == c && t[1] == c && t[2] == c
  }

  /** `text.startswith("{{", i)`. */
  predicate OpensAt(t: string, i: nat)
    requires i <= |t|
    ensures OpensAt(t, i) == Opens(t[i..])
  {
    i + 2 <= |t| && t[i] == '{' && t[i + 1] == '{'
  }

  function Repeat(c: char, n: nat): (s: string)
    ensures |s| == n && forall i :: 0 <= i < n ==> s[i] == c
  {
    seq(n, _ => c)
  }

  // ---------- expressions ----------

  predicate IsQuote(c: char) {
    c == '\'' || c == '"'
  }

  /** Inside a quote of one or of three characters, or in none. */
  datatype Quote = Outside | Single(c: char) | Triple(c: char)

  /** A text starts with the mark that ends a quote. */
  predicate Ends(t: string, quote: Quote)
    requires t != ""
  {
    match quote
    case Outside => false
    case Single(c) => t[0] == c
    case Triple(c) => ThreeOf(t, c)
  }

  /** One step of looking for the closing braces: on by some characters, found here, or unmatched. */
  datatype Look = Onward(width: nat, depth: nat, quote: Quote) | Found | Broken

  function LookAt(t: string, depth: nat, quote: Quote): (look: Look)
    requires t != ""
    ensures look.Onward? ==> look.width >= 1
  {
    if quote != Outside then
      if t[0] == '\\' && quote.Single? then Onward(2, depth, quote)
      else if Ends(t, quote) then Onward(if quote.Single? then 1 else 3, depth, Outside)
      else Onward(1, depth, quote)
    else if IsQuote(t[0]) then
      if ThreeOf(t, t[0]) then Onward(3, depth, Triple(t[0])) else Onward(1, depth, Single(t[0]))
    else if t[0] == '{' then Onward(1, depth + 1, Outside)
    else if t[0] == '}' then
      if depth > 0 then Onward(1, depth - 1, Outside)
      else if Closes(t) then Found
      else Broken
    else Onward(1, depth, Outside)
  }

  function Plus(n: nat, k: Option<nat>): Option<nat> {
    if k.None? then None else Some(n + k.value)
  }

  /** How far away the braces closing an expression are, inside `depth` braces and perhaps a quote. */
  function Closing(t: string, depth: nat, quote: Quote): (k: Option<nat>)
    ensures k.Some? ==> k.value + 2 <= |t|
    decreases |t|
  {
    if t == "" then None
    else
      match LookAt(t, depth, quote)
      case Onward(width, d, q) => if width <= |t| then Plus(width, Closing(t[width..], d, q)) else None
      case Found => Some(0)
      case Broken => None
  }

  predicate IsSpace(c: char) {
    c == ' ' || c == '\t' || c == '\n' || c == '\r'
  }

  function Strip(s: string): (r: string)
    ensures |r| <= |s|
  {
    if s != "" && IsSpace(s[0]) then Strip(s[1..])
    else if s != "" && IsSpace(s[|s| - 1]) then Strip(s[..|s| - 1])
    else s
  }

  /** The expression a text goes on with: its body and how much text it takes; none for a syntax error.
      `parses` answers whether a body is an expression of the language. */
  function Expression(t: string, parses: string -> bool): (r: Option<(string, nat)>)
    ensures r.Some? ==> 2 <= r.value.1 <= |t|
  {
    var close := Closing(t, 0, Outside);
    if close.None? then None
    else
      var body := Strip(t[..close.value]);
      if body == "" || !parses(body) then None else Some((body, close.value + 2))
  }

  lemma LookOn(t: string, depth: nat, quote: Quote, look: Look)
    requires t != "" && look == LookAt(t, depth, quote)
    ensures look.Onward? && look.width <= |t| ==>
      Closing(t, depth, quote) == Plus(look.width, Closing(t[look.width..], look.depth, look.quote))
    ensures look.Onward? && look.width > |t| ==> Closing(t, depth, quote) == None
    ensures look.Found? ==> Closing(t, depth, quote) == Some(0)
    ensures look.Broken? ==> Closing(t, depth, quote) == None
  {
  }

  /** `goal`, counted from `start`, is sought from `index` on. */
  ghost predicate Seeking(goal: Option<nat>, t: string, start: nat, index: nat, depth: nat, quote: Quote) {
    start <= index && goal == if index <= |t| then Plus(index - start, Closing(t[index..], depth, quote)) else None
  }

  lemma SeekOn(goal: Option<nat>, t: string, start: nat, index: nat, depth: nat, quote: Quote, look: Look)
    requires index < |t| && look == LookAt(t[index..], depth, quote) && Seeking(goal, t, start, index, depth, quote)
    ensures match look
            case Onward(width, d, q) => Seeking(goal, t, start, index + width, d, q)
            case Found => goal == Some(index - start)
            case Broken => goal == None
  {
    LookOn(t[index..], depth, quote, look);
    if look.Onward? && index + look.width <= |t| {
      assert t[index..][look.width..] == t[index + look.width..];
    }
  }

  method FindClosing(t: string, start: nat) returns (k: Option<nat>)
    requires start <= |t|
    ensures k == Plus(start, Closing(t[start..], 0, Outside))
  {
    ghost var goal := Closing(t[start..], 0, Outside);
    var index, depth: nat, quote := start, 0, Outside;
    while index < |t|
      invariant Seeking(goal, t, start, index, depth, quote)
    {
      var look := LookAt(t[index..], depth, quote);
      SeekOn(goal, t, start, index, depth, quote, look);
      match look
      case Onward(width, d, q) =>
        index, depth, quote := index + width, d, q;
      case Found =>
        return Some(index);
      case Broken =>
        return None;
    }
    return None;
  }

  method ReadExpression(t: string, start: nat, parses: string -> bool) returns (r: Option<(string, nat)>)
    requires start <= |t|
    ensures r == match Expression(t[start..], parses) case None => None case Some(e) => Some((e.0, start + e.1))
  {
    var close := FindClosing(t, start);
    if close.None? {
      return None;
    }
    var body := Strip(t[start..close.value]);
    assert t[start..][..close.value - start] == t[start..close.value];
    if body == "" || !parses(body) {
      return None;
    }
    return Some((body, close.value + 2));
  }

  // ---------- segments ----------

  function Flush(buf: string): seq<Segment> {
    if buf == "" then [] else [Text(buf)]
  }

  /** How many backslashes a text starts with. */
  function Run(t: string): (n: nat)
    ensures n <= |t| && (forall k :: 0 <= k < n ==> t[k] == '\\') && (n < |t| ==> t[n] != '\\')
  {
    if t != "" && t[0] == '\\' then 1 + Run(t[1..]) else 0
  }

  function Prepend(front: seq<Segment>, rest: Option<seq<Segment>>): Option<seq<Segment>> {
    if rest.None? then None else Some(front + rest.value)
  }

  lemma PrependJoins(a: seq<Segment>, b: seq<Segment>, rest: Option<seq<Segment>>)
    ensures Prepend(a, Prepend(b, rest)) == Prepend(a + b, rest)
    ensures Prepend([], rest) == rest
  {
    if rest.Some? {
      assert a + (b + rest.value) == a + b + rest.value;
      assert [] + rest.value == rest.value;
    }
  }

  /** The next move of the scanner: text to add to the buffer and how much was read, an expression, or an error. */
  datatype Piece = Plain(text: string, width: nat) | Embedded(body: string, width: nat) | Malformed

  /** A run of backslashes before `{{` is halved, and an odd one makes the braces plain text. */
  function NextPiece(t: string, parses: string -> bool): (p: Piece)
    requires t != ""
    ensures !p.Malformed? ==> 1 <= p.width <= |t|
  {
    if t[0] == '\\' then
      var n := Run(t);
      if Opens(t[n..]) then
        if n % 2 == 1 then Plain(Repeat('\\', n / 2) + "{{", n + 2) else Plain(Repeat('\\', n / 2), n)
      else Plain(Repeat('\\', n), n)
    else if Opens(t) then
      match Expression(t[2..], parses)
      case None => Malformed
      case Some(e) => Embedded(e.0, 2 + e.1)
    else Plain([t[0]], 1)
  }

  /** The segments of a text, with `buf` the plain text not yet flushed; none for a syntax error. */
  function Segments(t: string, buf: string, parses: string -> bool): Option<seq<Segment>>
    decreases |t|
  {
    if t == "" then Some(Flush(buf))
    else
      match NextPiece(t, parses)
      case Plain(text, width) => Segments(t[width..], buf + text, parses)
      case Embedded(body, width) => Prepend(Flush(buf) + [Expr(body)], Segments(t[width..], "", parses))
      case Malformed => None
  }

  method CountRun(t: string, i: nat) returns (n: nat)
    requires i <= |t|
    ensures n == Run(t[i..])
  {
    n := 0;
    while i + n < |t| && t[i + n] == '\\'
      invariant i + n <= |t| && n + Run(t[i + n..]) == Run(t[i..])
    {
      assert t[i + n..][1..] == t[i + n + 1..];
      n := n + 1;
    }
  }

  /** One move at an index of the text. */
  method ReadPiece(t: string, index: nat, parses: string -> bool) returns (p: Piece)
    requires index < |t|
    ensures p == NextPiece(t[index..], parses)
  {
    if t[index] == '\\' {
      var count := CountRun(t, index);
      assert t[index..][count..] == t[index + count..];
      if OpensAt(t, index + count) {
        if count % 2 == 1 {
          return Plain(Repeat('\\', count / 2) + "{{", count + 2);
        }
        return Plain(Repeat('\\', count / 2), count);
      }
      return Plain(Repeat('\\', count), count);
    }
    if OpensAt(t, index) {
      assert t[index..][2..] == t[index + 2..];
      var e := ReadExpression(t, index + 2, parses);
      if e.None? {
        return Malformed;
      }
      return Embedded(e.value.0, e.value.1 - index);
    }
    return Plain([t[index]], 1);
  }

  lemma PieceOn(t: string, buf: string, parses: string -> bool, p: Piece)
    requires t != "" && p == NextPiece(t, parses)
    ensures p.Plain? ==> Segments(t, buf, parses) == Segments(t[p.width..], buf + p.text, parses)
    ensures p.Embedded? ==>
      Segments(t, buf, parses) == Prepend(Flush(buf) + [Expr(p.body)], Segments(t[p.width..], "", parses))
    ensures p.Malformed? ==> Segments(t, buf, parses) == None
  {
  }

  /** `goal` is what has been split so far and the segments from `index` on. */
  ghost predicate Splitting(goal: Option<seq<Segment>>, t: string, index: nat, buf: string, segments: seq<Segment>,
                            parses: string -> bool)
    requires index <= |t|
  {
    goal == Prepend(segments, Segments(t[index..], buf, parses))
  }

  function NextBuffer(buf: string, p: Piece): string {
    if p.Plain? then buf + p.text else ""
  }

  function NextSegments(segments: seq<Segment>, buf: string, p: Piece): seq<Segment> {
    if p.Embedded? then segments + (Flush(buf) + [Expr(p.body)]) else segments
  }

  lemma SplitOn(goal: Option<seq<Segment>>, t: string, index: nat, buf: string, segments: seq<Segment>,
                parses: string -> bool, p: Piece)
    requires index < |t| && p == NextPiece(t[index..], parses) && Splitting(goal, t, index, buf, segments, parses)
    ensures !p.Malformed? ==>
      && index + p.width <= |t|
      && Splitting(goal, t, index + p.width, NextBuffer(buf, p), NextSegments(segments, buf, p), parses)
    ensures p.Malformed? ==> goal == None
  {
    PieceOn(t[index..], buf, parses, p);
    if !p.Malformed? {
      assert t[index..][p.width..] == t[index + p.width..];
    }
    if p.Embedded? {
      PrependJoins(segments, Flush(buf) + [Expr(p.body)], Segments(t[index + p.width..], "", parses));
    }
  }

  lemma SplitStarts(goal: Option<seq<Segment>>, t: string, parses: string -> bool)
    requires goal == Segments(t, "", parses)
    ensures Splitting(goal, t, 0, "", [], parses)
  {
    assert t[0..] == t;
    PrependJoins([], [], goal);
  }

  lemma SplitEnds(goal: Option<seq<Segment>>, t: string, buf: string, segments: seq<Segment>, parses: string -> bool)
    requires Splitting(goal, t, |t|, buf, segments, parses)
    ensures goal == Some(segments + Flush(buf))
  {
    assert t[|t|..] == "";
  }

  method SplitPiece(ghost goal: Option<seq<Segment>>, t: string, index: nat, ghost buf: string,
                    ghost segments: seq<Segment>, parses: string -> bool)
      returns (p: Piece)
    requires index < |t| && Splitting(goal, t, index, buf, segments, parses)
    ensures p.Malformed? ==> goal == None
    ensures !p.Malformed? ==> 1 <= p.width <= |t| - index
    ensures !p.Malformed? ==>
      Splitting(goal, t, index + p.width, NextBuffer(buf, p), NextSegments(segments, buf, p), parses)
  {
    p := ReadPiece(t, index, parses);
    SplitOn(goal, t, index, buf, segments, parses, p);
  }

  method ScanTo(ghost goal: Option<seq<Segment>>, t: string, parses: string -> bool) returns (r: Option<seq<Segment>>)
    requires Splitting(goal, t, 0, "", [], parses)
    ensures r == goal
  {
    var segments: seq<Segment>, buf, index: nat := [], "", 0;
    while index < |t|
      invariant index <= |t| && Splitting(goal, t, index, buf, segments, parses)
    {
      var p := SplitPiece(goal, t, index, buf, segments, parses);
      if p.Malformed? {
        return None;
      }
      segments, buf, index := NextSegments(segments, buf, p), NextBuffer(buf, p), index + p.width;
    }
    SplitEnds(goal, t, buf, segments, parses);
    return Some(segments + Flush(buf));
  }

  method Scan(t: string, parses: string -> bool) returns (r: Option<seq<Segment>>)
    ensures r == Segments(t, "", parses)
  {
    ghost var goal := Segments(t, "", parses);
    SplitStarts(goal, t, parses);
    r := ScanTo(goal, t, parses);
  }

  // ---------- writing segments back ----------

  /** A body that is read back as itself: stripped, an expression, and closed by the braces right after it. */
  predicate SelfDelimiting(body: string, parses: string -> bool) {
    body != "" && Strip(body) == body && parses(body) && Closing(body + "}}", 0, Outside) == Some(|body|)
  }

  /** Text that ends in exactly one opening brace. */
  predicate EndsInOneBrace(s: string) {
    s != "" && s[|s| - 1] == '{' && !(|s| > 1 && s[|s| - 2] == '{')
  }

  /** No text is empty or next to another text, none before an expression ends in a single opening brace, and
      every expression's body is read back as itself. */
  predicate Writable(segments: seq<Segment>, parses: string -> bool) {
    && (forall i :: 0 <= i < |segments| && segments[i].Text? ==> segments[i].text != "")
    && (forall i :: 0 <= i < |segments| && segments[i].Expr? ==> SelfDelimiting(segments[i].text, parses))
    && (forall i :: 0 <= i < |segments| - 1 && segments[i].Text? ==>
        segments[i + 1].Expr? && !EndsInOneBrace(segments[i].text))
  }

  /** How many opening braces a text starts with. */
  function Braces(t: string): (n: nat)
    ensures n <= |t| && (forall k :: 0 <= k < n ==> t[k] == '{') && (n < |t| ==> t[n] != '{')
  {
    if t != "" && t[0] == '{' then 1 + Braces(t[1..]) else 0
  }

  /** Plain text as it must be written, `embedded` telling whether an expression follows. */
  function Escape(s: string, embedded: bool): string
    decreases |s|
  {
    if s == "" then ""
    else
      var n := Run(s);
      var m := Braces(s[n..]);
      if m >= 2 && m % 2 == 0 then Repeat('\\', 2 * n + 1) + "{{" + Escape(s[n + 2..], embedded)
      else if n == 0 then [s[0]] + Escape(s[1..], embedded)
      else if n == |s| && embedded then Repeat('\\', 2 * n)
      else Repeat('\\', n) + Escape(s[n..], embedded)
  }

  function Write(segments: seq<Segment>): string {
    if segments == [] then ""
    else if segments[0].Text? then Escape(segments[0].text, |segments| > 1) + Write(segments[1..])
    else "{{" + segments[0].text + "}}" + Write(segments[1..])
  }

  lemma SameMiddle(t: string, u: string, w: nat, n: nat)
    requires w <= n <= |t| && n <= |u| && t[..n] == u[..n]
    ensures t[w..][..n - w] == u[w..][..n - w]
  {
    assert t[w..][..n - w] == t[..n][w..] && u[w..][..n - w] == u[..n][w..];
  }

  /** What follows the closing braces does not matter. */
  lemma {:induction false} ClosingDecided(t: string, u: string, depth: nat, quote: Quote)
    requires Closing(t, depth, quote).Some?
    requires var k := Closing(t, depth, quote).value; k + 2 <= |u| && t[..k + 2] == u[..k + 2]
    ensures Closing(u, depth, quote) == Closing(t, depth, quote)
    decreases |t|
  {
    var k := Closing(t, depth, quote).value;
    LookDecided(t, u, k + 2, depth, quote);
    var look := LookAt(t, depth, quote);
    if look.Onward? {
      assert Closing(t[look.width..], look.depth, look.quote).value == k - look.width;
      SameMiddle(t, u, look.width, k + 2);
      ClosingDecided(t[look.width..], u[look.width..], look.depth, look.quote);
    }
  }

  lemma LookDecided(t: string, u: string, n: nat, depth: nat, quote: Quote)
    requires 2 <= n <= |t| && n <= |u| && t[..n] == u[..n]
    requires n >= 3 || (quote == Outside && !IsQuote(t[0]))
    ensures LookAt(t, depth, quote) == LookAt(u, depth, quote)
  {
    forall i | 0 <= i < n ensures t[i] == u[i] {
      assert t[i] == t[..n][i] && u[i] == u[..n][i];
    }
  }

  // ---------- every writable list is read back ----------

  lemma RunOf(n: nat, rest: string)
    requires rest == "" || rest[0] != '\\'
    ensures Run(Repeat('\\', n) + rest) == n && (Repeat('\\', n) + rest)[n..] == rest
  {
    var t := Repeat('\\', n) + rest;
    assert forall k :: 0 <= k < n ==> t[k] == '\\';
    assert n < |t| ==> t[n] == rest[0];
  }

  /** The piece a run of backslashes makes. */
  lemma PieceOfRun(n: nat, rest: string, parses: string -> bool)
    requires n >= 1 && (rest == "" || rest[0] != '\\')
    ensures Repeat('\\', n) + rest != ""
    ensures NextPiece(Repeat('\\', n) + rest, parses) ==
      if !Opens(rest) then Plain(Repeat('\\', n), n)
      else if n % 2 == 1 then Plain(Repeat('\\', n / 2) + "{{", n + 2)
      else Plain(Repeat('\\', n / 2), n)
  {
    RunOf(n, rest);
    assert (Repeat('\\', n) + rest)[0] == '\\';
  }

  /** One plain piece read off the front. */
  lemma ReadPlain(t: string, text: string, width: nat, rest: string, buf: string, parses: string -> bool)
    requires t != "" && NextPiece(t, parses) == Plain(text, width) && width <= |t| && t[width..] == rest
    ensures Segments(t, buf, parses) == Segments(rest, buf + text, parses)
  {
  }

  /** A written text whose leading braces come in pairs does not start with a brace. */
  lemma FirstNotBrace(s: string, embedded: bool, tail: string)
    requires Braces(s) % 2 == 0 && (s == "" ==> tail == "")
    ensures Escape(s, embedded) + tail == "" || (Escape(s, embedded) + tail)[0] != '{'
  {
  }

  lemma NotAPair(m: nat, k: nat)
    requires m == 1 + k && !(m >= 2 && m % 2 == 0)
    ensures k % 2 == 0
  {
  }

  /** Otherwise it starts with its own first character, and not with two braces. */
  lemma PlainStart(s: string, embedded: bool, tail: string)
    requires s != "" && Run(s) == 0 && !(Braces(s) >= 2 && Braces(s) % 2 == 0)
    requires embedded ==> !EndsInOneBrace(s)
    requires !embedded ==> tail == ""
    ensures Escape(s, embedded) == [s[0]] + Escape(s[1..], embedded)
    ensures !Opens(Escape(s, embedded) + tail)
  {
    assert s[0..] == s;
    if s[0] == '{' {
      NotAPair(Braces(s), Braces(s[1..]));
      assert |s| == 1 ==> EndsInOneBrace(s);
      FirstNotBrace(s[1..], embedded, tail);
    }
    JoinStart(s[0], Escape(s[1..], embedded), tail);
  }

  lemma JoinStart(c: char, rest: string, tail: string)
    requires c == '{' ==> rest + tail == "" || (rest + tail)[0] != '{'
    ensures !Opens([c] + rest + tail)
  {
    var t := [c] + rest + tail;
    assert t == [c] + (rest + tail);
    if |t| >= 2 {
      assert t[..2][0] == c && t[..2][1] == (rest + tail)[0];
    }
  }

  lemma TailEnd(s: string, k: nat)
    requires k < |s| && !EndsInOneBrace(s)
    requires k == |s| - 1 && s[k] == '{' ==> k == 0 || s[k - 1] != '{'
    ensures !EndsInOneBrace(s[k..])
  {
  }

  lemma PairEnd(s: string, n: nat)
    requires n <= |s| && Braces(s[n..]) >= 2 && Braces(s[n..]) % 2 == 0 && !EndsInOneBrace(s)
    ensures n + 2 <= |s| && !EndsInOneBrace(s[n + 2..])
  {
    if n + 2 < |s| {
      assert s[n..][1] == s[n + 1] && s[n..][2] == s[n + 2];
      TailEnd(s, n + 2);
    }
  }

  lemma CharEnd(s: string)
    requires s != "" && !(Braces(s[0..]) >= 2 && Braces(s[0..]) % 2 == 0) && !EndsInOneBrace(s)
    ensures !EndsInOneBrace(s[1..])
  {
    assert s[0..] == s;
    if 1 < |s| {
      TailEnd(s, 1);
    }
  }

  /** Scanning written text puts the text itself into the buffer and goes on with what follows. */
  lemma {:induction false} EscapeScans(s: string, embedded: bool, tail: string, buf: string, parses: string -> bool)
    requires embedded ==> !EndsInOneBrace(s) && Opens(tail)
    requires !embedded ==> tail == ""
    ensures Segments(Escape(s, embedded) + tail, buf, parses) == Segments(tail, buf + s, parses)
    decreases |s|
  {
    if s == "" {
      assert Escape(s, embedded) + tail == tail && buf + s == buf;
    } else {
      var n := Run(s);
      var m := Braces(s[n..]);
      if m >= 2 && m % 2 == 0 {
        PairScans(s, n, embedded, tail, buf, parses);
        if embedded {
          PairEnd(s, n);
        }
        EscapeScans(s[n + 2..], embedded, tail, buf + (Repeat('\\', n) + "{{"), parses);
        PairText(buf, s);
      } else if n == 0 {
        CharScans(s, embedded, tail, buf, parses);
        if embedded {
          CharEnd(s);
        }
        EscapeScans(s[1..], embedded, tail, buf + [s[0]], parses);
        CharText(buf, s);
      } else if n == |s| && embedded {
        PieceOfRun(2 * n, tail, parses);
        RunText("", s);
        assert s == Repeat('\\', n);
        ReadPlain(Repeat('\\', 2 * n) + tail, Repeat('\\', n), 2 * n, tail, buf, parses);
      } else {
        RunScans(s, embedded, tail, buf, parses);
        if embedded {
          TailEnd(s, n);
        }
        EscapeScans(s[n..], embedded, tail, buf + Repeat('\\', n), parses);
        RunText(buf, s);
      }
    }
  }

  lemma RunText(buf: string, s: string)
    ensures buf + Repeat('\\', Run(s)) + s[Run(s)..] == buf + s
  {
    SplitRun(s);
    JoinTwo(buf, Repeat('\\', Run(s)), s[Run(s)..], s);
  }

  /** A text is its leading backslashes and what follows them. */
  lemma SplitRun(s: string)
    ensures s == Repeat('\\', Run(s)) + s[Run(s)..]
  {
    var n := Run(s);
    assert s[..n] == Repeat('\\', n);
    assert s == s[..n] + s[n..];
  }

  lemma JoinTwo(buf: string, a: string, b: string, s: string)
    requires s == a + b
    ensures buf + a + b == buf + s
  {
  }

  lemma PairText(buf: string, s: string)
    requires Braces(s[Run(s)..]) >= 2
    ensures buf + (Repeat('\\', Run(s)) + "{{") + s[Run(s) + 2..] == buf + s
  {
    var n := Run(s);
    BracesFirst(s[n..]);
    assert s[n..][2..] == s[n + 2..];
    SplitRun(s);
    JoinPair(buf, Repeat('\\', n), s[n + 2..], s);
  }

  lemma BracesFirst(r: string)
    requires Braces(r) >= 2
    ensures r == "{{" + r[2..]
  {
    assert r[0] == '{' && r[1] == '{';
  }

  lemma JoinPair(buf: string, a: string, rest: string, s: string)
    requires s == a + ("{{" + rest)
    ensures buf + (a + "{{") + rest == buf + s
  {
  }

  lemma CharText(buf: string, s: string)
    requires s != ""
    ensures buf + [s[0]] + s[1..] == buf + s
  {
    JoinTwo(buf, [s[0]], s[1..], s);
  }

  lemma PairScans(s: string, n: nat, embedded: bool, tail: string, buf: string, parses: string -> bool)
    requires s != "" && n == Run(s) && n + 2 <= |s| && Braces(s[n..]) >= 2 && Braces(s[n..]) % 2 == 0
    ensures Segments(Escape(s, embedded) + tail, buf, parses) ==
        Segments(Escape(s[n + 2..], embedded) + tail, buf + (Repeat('\\', n) + "{{"), parses)
  {
    var t, rest := Escape(s, embedded), Escape(s[n + 2..], embedded);
    assert t == Repeat('\\', 2 * n + 1) + "{{" + rest;
    Regroup(Repeat('\\', 2 * n + 1), "{{", rest, tail);
    ReadPair(n, t + tail, rest + tail, buf, parses);
  }

  lemma Regroup(a: string, b: string, c: string, d: string)
    ensures a + b + c + d == a + (b + (c + d))
  {
  }

  lemma ReadPair(n: nat, t: string, rest: string, buf: string, parses: string -> bool)
    requires t == Repeat('\\', 2 * n + 1) + ("{{" + rest)
    ensures Segments(t, buf, parses) == Segments(rest, buf + (Repeat('\\', n) + "{{"), parses)
  {
    PieceOfRun(2 * n + 1, "{{" + rest, parses);
    assert t[2 * n + 3..] == rest;
    ReadPlain(t, Repeat('\\', n) + "{{", 2 * n + 3, rest, buf, parses);
  }

  lemma CharScans(s: string, embedded: bool, tail: string, buf: string, parses: string -> bool)
    requires s != "" && Run(s) == 0 && !(Braces(s[0..]) >= 2 && Braces(s[0..]) % 2 == 0)
    requires embedded ==> !EndsInOneBrace(s)
    requires !embedded ==> tail == ""
    ensures Segments(Escape(s, embedded) + tail, buf, parses) ==
        Segments(Escape(s[1..], embedded) + tail, buf + [s[0]], parses)
  {
    assert s[0..] == s;
    PlainStart(s, embedded, tail);
    var rest := Escape(s[1..], embedded) + tail;
    var t := Escape(s, embedded) + tail;
    assert t == [s[0]] + rest;
    ReadPlain(t, [s[0]], 1, rest, buf, parses);
  }

  lemma JoinThree(t: string, a: string, b: string, c: string)
    requires t == a + b
    ensures t + c == a + (b + c)
  {
  }

  lemma RunScans(s: string, embedded: bool, tail: string, buf: string, parses: string -> bool)
    requires 0 < Run(s) <= |s| && !(Braces(s[Run(s)..]) >= 2 && Braces(s[Run(s)..]) % 2 == 0)
    requires !(Run(s) == |s| && embedded)
    requires embedded ==> !EndsInOneBrace(s)
    requires !embedded ==> tail == ""
    ensures Segments(Escape(s, embedded) + tail, buf, parses) ==
        Segments(Escape(s[Run(s)..], embedded) + tail, buf + Repeat('\\', Run(s)), parses)
  {
    var n := Run(s);
    var rest := Escape(s[n..], embedded) + tail;
    if n < |s| {
      if embedded {
        TailEnd(s, n);
      }
      PlainStart(s[n..], embedded, tail);
    }
    JoinThree(Escape(s, embedded), Repeat('\\', n), Escape(s[n..], embedded), tail);
    PieceOfRun(n, rest, parses);
    ReadPlain(Repeat('\\', n) + rest, Repeat('\\', n), n, rest, buf, parses);
  }

  /** Stripping a body leaves nothing more to strip. */
  lemma {:induction false} StripTwice(s: string)
    ensures Strip(Strip(s)) == Strip(s)
    decreases |s|
  {
    if s != "" && IsSpace(s[0]) {
      StripTwice(s[1..]);
    } else if s != "" && IsSpace(s[|s| - 1]) {
      StripTwice(s[..|s| - 1]);
    }
  }

  /** A self-delimiting body between braces is read as itself, whatever follows. */
  lemma BodyIsRead(body: string, rest: string, parses: string -> bool)
    requires SelfDelimiting(body, parses)
    ensures Expression(body + "}}" + rest, parses) == Some((body, |body| + 2))
  {
    var t, u := body + "}}", body + "}}" + rest;
    assert t[..|body| + 2] == t && u[..|body| + 2] == t;
    ClosingDecided(t, u, 0, Outside);
    assert u[..|body|] == body;
  }

  lemma ExprScans(body: string, rest: string, buf: string, parses: string -> bool)
    requires SelfDelimiting(body, parses)
    ensures Segments("{{" + body + "}}" + rest, buf, parses) ==
        Prepend(Flush(buf) + [Expr(body)], Segments(rest, "", parses))
  {
    var t := "{{" + body + "}}" + rest;
    assert t[2..] == body + "}}" + rest;
    BodyIsRead(body, rest, parses);
    assert t[..2] == "{{";
    assert NextPiece(t, parses) == Embedded(body, |body| + 4);
    assert t[|body| + 4..] == rest;
  }

  lemma RestIsWritable(segments: seq<Segment>, parses: string -> bool)
    requires Writable(segments, parses) && segments != []
    ensures Writable(segments[1..], parses)
  {
    var rest := segments[1..];
    forall i | 0 <= i < |rest| ensures rest[i] == segments[i + 1] {}
  }

  /** An expression and what is read back after it. */
  lemma ExprFirst(body: string, last: seq<Segment>, buf: string, text: string, all: seq<Segment>,
                  parses: string -> bool)
    requires SelfDelimiting(body, parses) && Segments(Write(last), "", parses) == Some(last)
    requires text == "{{" + body + "}}" + Write(last) && all == Flush(buf) + [Expr(body)] + last
    ensures Segments(text, buf, parses) == Some(all)
  {
    ExprScans(body, Write(last), buf, parses);
  }

  /** A text, then what is read with it in the buffer. */
  lemma TextFirst(text: string, embedded: bool, tail: string, written: string, parses: string -> bool)
    requires embedded ==> !EndsInOneBrace(text) && Opens(tail)
    requires !embedded ==> tail == ""
    requires written == Escape(text, embedded) + tail
    ensures Segments(written, "", parses) == Segments(tail, text, parses)
  {
    EscapeScans(text, embedded, tail, "", parses);
    assert "" + text == text;
  }

  lemma WriteText(segments: seq<Segment>)
    requires segments != []
    ensures segments[0].Text? ==> Write(segments) == Escape(segments[0].text, |segments| > 1) + Write(segments[1..])
    ensures segments[0].Expr? ==>
      Write(segments) == "{{" + segments[0].text + "}}" + Write(segments[1..]) && Opens(Write(segments))
    ensures segments == [segments[0]] + segments[1..]
  {
    if segments[0].Expr? {
      OpensFirst(segments[0].text, Write(segments[1..]));
    }
  }

  lemma OpensFirst(body: string, rest: string)
    ensures Opens("{{" + body + "}}" + rest)
  {
    var t := "{{" + body + "}}" + rest;
    assert t[0] == '{' && t[1] == '{';
  }

  /** Writing segments and splitting the text gives the segments back. */
  lemma {:induction false} WrittenIsReadBack(segments: seq<Segment>, parses: string -> bool)
    requires Writable(segments, parses)
    ensures Segments(Write(segments), "", parses) == Some(segments)
    decreases |segments|
  {
    if segments != [] {
      var first, rest := segments[0], segments[1..];
      RestIsWritable(segments, parses);
      WriteText(segments);
      if first.Expr? {
        WrittenIsReadBack(rest, parses);
        ExprFirst(first.text, rest, "", Write(segments), segments, parses);
      } else if rest == [] {
        LoneText(first, Write(segments), parses);
        assert segments == [first];
      } else {
        RestIsWritable(rest, parses);
        WriteText(rest);
        WrittenIsReadBack(rest[1..], parses);
        TextThenExpr(first, rest, segments, Write(segments), parses);
      }
    }
  }

  lemma LoneText(first: Segment, text: string, parses: string -> bool)
    requires first.Text? && first.text != "" && text == Escape(first.text, false) + ""
    ensures Segments(text, "", parses) == Some([first])
  {
    TextFirst(first.text, false, "", text, parses);
  }

  lemma TextThenExpr(first: Segment, rest: seq<Segment>, all: seq<Segment>, text: string, parses: string -> bool)
    requires first.Text? && first.text != "" && !EndsInOneBrace(first.text) && rest != [] && rest[0].Expr?
    requires all == [first] + rest
    requires SelfDelimiting(rest[0].text, parses) && Segments(Write(rest[1..]), "", parses) == Some(rest[1..])
    requires text == Escape(first.text, true) + Write(rest)
    ensures Segments(text, "", parses) == Some(all)
  {
    WriteText(rest);
    TextFirst(first.text, true, Write(rest), text, parses);
    assert all == [first] + [rest[0]] + rest[1..];
    ExprFirst(rest[0].text, rest[1..], first.text, Write(rest), all, parses);
  }

  // ---------- every list read is writable ----------

  predicate RealQuote(quote: Quote) {
    quote != Outside ==> IsQuote(quote.c)
  }

  /** Before plain text that is no quote, a look does not depend on what that text is. */
  lemma LookWithin(x: string, y: string, z: string, depth: nat, quote: Quote)
    requires x != "" && y != "" && z != "" && !IsQuote(y[0]) && !IsQuote(z[0]) && RealQuote(quote)
    requires !(x[0] == '}' && depth == 0 && quote == Outside)
    ensures LookAt(x + y, depth, quote) == LookAt(x + z, depth, quote)
    ensures LookAt(x + y, depth, quote).Onward? && RealQuote(LookAt(x + y, depth, quote).quote)
    ensures LookAt(x + y, depth, quote).width <= |x|
        || (LookAt(x + y, depth, quote) == Onward(2, depth, quote) && |x| == 1 && quote != Outside)
  {
    var t, u := x + y, x + z;
    forall i | 0 <= i < |x| ensures t[i] == x[i] == u[i] {}
    assert t[|x|] == y[0] && u[|x|] == z[0];
  }

  /** Inside a quote no braces close. */
  lemma QuotedIsNotFound(t: string, depth: nat, quote: Quote)
    requires quote != Outside
    ensures Closing(t, depth, quote) != Some(0)
  {
  }

  lemma LoneSpace(c: char, depth: nat, quote: Quote)
    requires IsSpace(c) && RealQuote(quote) && Closing([c] + "}}", depth, quote) == Some(1)
    ensures Closing("}}", depth, quote) == Some(0)
  {
    var y := [c] + "}}";
    assert y[1..] == "}}";
    if quote != Outside {
      QuotedIsNotFound("}}", depth, quote);
    }
  }

  /** Leaving out a space just before the closing braces moves them one back. */
  lemma {:induction false} SpaceBeforeBraces(x: string, c: char, depth: nat, quote: Quote)
    requires IsSpace(c) && RealQuote(quote) && Closing(x + ([c] + "}}"), depth, quote) == Some(|x| + 1)
    ensures Closing(x + "}}", depth, quote) == Some(|x|)
    decreases |x|
  {
    hide LookAt;
    var y := [c] + "}}";
    if x == "" {
      assert x + y == y && x + "}}" == "}}";
      LoneSpace(c, depth, quote);
    } else {
      var look := LookBeforeSpace(x, y, depth, quote);
      OnWithin(x, y, depth, quote, look);
      SpaceBeforeBraces(x[look.width..], c, look.depth, look.quote);
      OnWithin(x, "}}", depth, quote, look);
    }
  }

  /** The first look stays within the text before the space, and is the same without the space. */
  lemma LookBeforeSpace(x: string, y: string, depth: nat, quote: Quote) returns (look: Look)
    requires x != "" && |y| == 3 && IsSpace(y[0]) && y[1..] == "}}" && RealQuote(quote)
    requires Closing(x + y, depth, quote) == Some(|x| + 1)
    ensures look == LookAt(x + y, depth, quote) && look == LookAt(x + "}}", depth, quote)
    ensures look.Onward? && look.width <= |x| && RealQuote(look.quote)
  {
    look := LookAt(x + y, depth, quote);
    NotFoundYet(x, y, depth, quote);
    LookWithin(x, y, "}}", depth, quote);
    if look.width > |x| {
      SkippedSpace(x, y, depth, quote, look);
    }
  }

  /** A backslash in a quote skips the space, but the braces after it are still quoted. */
  lemma SkippedSpace(x: string, y: string, depth: nat, quote: Quote, look: Look)
    requires |x| == 1 && |y| == 3 && y[1..] == "}}" && quote != Outside
    requires look == LookAt(x + y, depth, quote) && look == Onward(2, depth, quote)
    ensures Closing(x + y, depth, quote) != Some(2)
  {
    LookOn(x + y, depth, quote, look);
    assert (x + y)[2..] == y[1..];
    QuotedIsNotFound("}}", depth, quote);
  }

  lemma OnWithin(x: string, y: string, depth: nat, quote: Quote, look: Look)
    requires x != "" && look == LookAt(x + y, depth, quote) && look.Onward? && look.width <= |x|
    ensures Closing(x + y, depth, quote) == Plus(look.width, Closing(x[look.width..] + y, look.depth, look.quote))
  {
    LookOn(x + y, depth, quote, look);
    assert (x + y)[look.width..] == x[look.width..] + y;
  }

  lemma NotFoundYet(x: string, y: string, depth: nat, quote: Quote)
    requires x != "" && Closing(x + y, depth, quote) == Some(|x| + 1)
    ensures !(x[0] == '}' && depth == 0 && quote == Outside)
  {
    assert (x + y)[0] == x[0];
  }

  lemma {:induction false} StripKeepsClosing(s: string)
    requires Closing(s + "}}", 0, Outside) == Some(|s|)
    ensures Closing(Strip(s) + "}}", 0, Outside) == Some(|Strip(s)|)
    decreases |s|
  {
    if s != "" && IsSpace(s[0]) {
      assert (s + "}}")[0] == s[0] && (s + "}}")[1..] == s[1..] + "}}";
      StripKeepsClosing(s[1..]);
    } else if s != "" && IsSpace(s[|s| - 1]) {
      var n := |s| - 1;
      assert s + "}}" == s[..n] + ([s[n]] + "}}");
      SpaceBeforeBraces(s[..n], s[n], 0, Outside);
      StripKeepsClosing(s[..n]);
    }
  }

  lemma SamePlace(t: string, w: nat, k: nat)
    requires w + k + 2 <= |t|
    ensures t[w..][k..k + 2] == t[w + k..w + k + 2]
  {
  }

  lemma {:induction false} ClosingBraces(t: string, depth: nat, quote: Quote)
    requires Closing(t, depth, quote).Some?
    ensures var k := Closing(t, depth, quote).value; t[k..k + 2] == "}}"
    decreases |t|
  {
    var look := LookAt(t, depth, quote);
    if look.Onward? {
      LookOn(t, depth, quote, look);
      ClosingBraces(t[look.width..], look.depth, look.quote);
      SamePlace(t, look.width, Closing(t[look.width..], look.depth, look.quote).value);
    }
  }

  lemma ReadBodyIsSelfDelimiting(t: string, parses: string -> bool)
    requires Expression(t, parses).Some?
    ensures SelfDelimiting(Expression(t, parses).value.0, parses)
  {
    var k := Closing(t, 0, Outside).value;
    var u := t[..k] + "}}";
    ClosingBraces(t, 0, Outside);
    assert t[..k + 2] == t[..k] + t[k..k + 2] && u[..k + 2] == u;
    ClosingDecided(t, u, 0, Outside);
    StripKeepsClosing(t[..k]);
    StripTwice(t[..k]);
  }

  /** What a buffer may end in before the text still to be read. */
  predicate BraceSafe(buf: string, t: string) {
    EndsInOneBrace(buf) ==> t == "" || t[0] != '{'
  }

  lemma PlainIsSafe(t: string, buf: string, parses: string -> bool)
    requires t != "" && BraceSafe(buf, t) && NextPiece(t, parses).Plain?
    ensures var p := NextPiece(t, parses); p.text != "" && BraceSafe(buf + p.text, t[p.width..])
  {
    var p := NextPiece(t, parses);
    var more := buf + p.text;
    if t[0] == '\\' {
      assert more[|more| - 1] == p.text[|p.text| - 1];
    } else if t[0] == '{' && |t| > 1 {
      assert t[..2] == [t[0], t[1]];
    }
  }

  lemma JoinWritable(buf: string, body: string, last: seq<Segment>, parses: string -> bool)
    requires SelfDelimiting(body, parses) && Writable(last, parses) && !EndsInOneBrace(buf)
    ensures Writable(Flush(buf) + [Expr(body)] + last, parses)
  {
    var all, k := Flush(buf) + [Expr(body)] + last, |Flush(buf)| + 1;
    assert all[k - 1] == Expr(body);
    forall i | k <= i < |all| ensures all[i] == last[i - k] {}
  }

  /** Whatever is read is writable, */
  lemma {:induction false} ReadIsWritable(t: string, buf: string, parses: string -> bool)
    requires Segments(t, buf, parses).Some? && BraceSafe(buf, t)
    ensures Writable(Segments(t, buf, parses).value, parses)
    decreases |t|
  {
    if t != "" {
      match NextPiece(t, parses)
      case Plain(text, width) =>
        PlainIsSafe(t, buf, parses);
        ReadIsWritable(t[width..], buf + text, parses);
      case Embedded(body, width) =>
        ReadBodyIsSelfDelimiting(t[2..], parses);
        assert t[..2][0] == t[0];
        ReadIsWritable(t[width..], "", parses);
        JoinWritable(buf, body, Segments(t[width..], "", parses).value, parses);
    }
  }

  /** so a list of segments is what some text splits into exactly when it is writable. */
  lemma ScannedIffWritable(segments: seq<Segment>, parses: string -> bool)
    ensures Writable(segments, parses) <==> exists t :: Segments(t, "", parses) == Some(segments)
  {
    if Writable(segments, parses) {
      WrittenIsReadBack(segments, parses);
    }
    forall t | Segments(t, "", parses) == Some(segments) ensures Writable(segments, parses) {
      ReadIsWritable(t, "", parses);
    }
  }
}
