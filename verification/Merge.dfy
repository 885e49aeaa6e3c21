/** Merge tags: where they are in a template, what a template renders to, and what values cannot do to it. */
module Merge {
  import opened Text

  // ----- The language of tags -----

  predicate IsWord(c: char) {
    'a' <= c <= 'z' || 'A' <= c <= 'Z' || '0' <= c <= '9' || c == '_'
  }

  /**
   What the regular expression of a tag stands for: `s[..n]` is `{{`, white space, a name, white space, `}}`, and the
   name is `s[a..b]`.
   */
  ghost predicate TagAt(s: string, n: nat, a: nat, b: nat) {
    && 2 <= a < b && b + 2 <= n <= |s|
    && s[0] == '{' && s[1] == '{'
    && (forall i | 2 <= i < a :: IsSpace(s[i]))
    && (forall i | a <= i < b :: IsWord(s[i]))
    && (forall i | b <= i < n - 2 :: IsSpace(s[i]))
    && s[n - 2] == '}' && s[n - 1] == '}'
  }

  ghost predicate IsTag(s: string, n: nat, name: string) {
    exists a: nat, b: nat :: TagAt(s, n, a, b) && name == s[a..b]
  }

  ghost predicate NoTagHere(s: string) {
    forall n: nat, name :: !IsTag(s, n, name)
  }

  // ----- The matcher -----

  function Skip(p: char -> bool, s: string, i: nat): (j: nat)
    requires i <= |s|
    ensures i <= j <= |s| && (forall k | i <= k < j :: p(s[k])) && (j < |s| ==> !p(s[j]))
    decreases |s| - i
  {
    if i < |s| && p(s[i]) then Skip(p, s, i + 1) else i
  }

  datatype Hit = Hit(name: string, length: nat)

  /** The tag that begins at `s[0]`, if one does. */
  function Match(s: string): (h: Option<Hit>)
    ensures h.Some? ==> 2 < h.value.length <= |s|
  {
    if |s| < 2 || s[0] != '{' || s[1] != '{' then None
    else
      var a := Skip(IsSpace, s, 2);
      var b := Skip(IsWord, s, a);
      var c := Skip(IsSpace, s, b);
      if a < b && c + 2 <= |s| && s[c] == '}' && s[c + 1] == '}' then Some(Hit(s[a..b], c + 2)) else None
  }

  lemma MatchFindsTag(s: string)
    requires Match(s).Some?
    ensures IsTag(s, Match(s).value.length, Match(s).value.name)
  {
    var a := Skip(IsSpace, s, 2);
    assert TagAt(s, Match(s).value.length, a, Skip(IsWord, s, a));
  }

  lemma SkipEnds(p: char -> bool, s: string, i: nat, j: nat)
    requires i <= j <= |s| && (forall k | i <= k < j :: p(s[k])) && (j < |s| ==> !p(s[j]))
    ensures Skip(p, s, i) == j
  {
  }

  lemma TagIsMatched(s: string, n: nat, name: string)
    requires IsTag(s, n, name)
    ensures Match(s) == Some(Hit(name, n))
  {
    var a: nat, b: nat :| TagAt(s, n, a, b) && name == s[a..b];
    TagSkips(s, n, a, b);
  }

  lemma TagSkips(s: string, n: nat, a: nat, b: nat)
    requires TagAt(s, n, a, b)
    ensures Skip(IsSpace, s, 2) == a && Skip(IsWord, s, a) == b && Skip(IsSpace, s, b) == n - 2
  {
    assert IsWord(s[a]);
    SkipEnds(IsSpace, s, 2, a);
    assert b < n - 2 ==> IsSpace(s[b]);
    SkipEnds(IsWord, s, a, b);
    SkipEnds(IsSpace, s, b, n - 2);
  }

  /** The matcher is exact: a prefix is a tag of that name if and only if the matcher finds it, so ends are unique. */
  lemma MatchIsExact(s: string, n: nat, name: string)
    ensures IsTag(s, n, name) <==> Match(s) == Some(Hit(name, n))
    ensures NoTagHere(s) <==> Match(s).None?
  {
    if IsTag(s, n, name) { TagIsMatched(s, n, name); }
    if Match(s).Some? {
      MatchFindsTag(s);
    } else {
      forall k: nat, other ensures !IsTag(s, k, other) { if IsTag(s, k, other) { TagIsMatched(s, k, other); } }
    }
  }

  // ----- Readings -----

  datatype Piece = Literal(text: string) | Tag(text: string, name: string)

  /**
   `ps` reads `s` from the left: tags are tags, literals are as long as they can be, and no tag begins inside a
   literal, whether or not it would end there.
   */
  ghost predicate IsReading(s: string, ps: seq<Piece>)
    decreases |ps|
  {
    if ps == [] then s == ""
    else
      && ps[0].text <= s && IsReading(s[|ps[0].text|..], ps[1..])
      && match ps[0]
         case Tag(text, name) => IsTag(s, |text|, name)
         case Literal(text) => text != "" && (|ps| > 1 ==> ps[1].Tag?) && forall i | 0 <= i < |text| ::
           NoTagHere(s[i..])
  }

  function Push(c: char, ps: seq<Piece>): seq<Piece> {
    if ps != [] && ps[0].Literal? then [Literal([c] + ps[0].text)] + ps[1..] else [Literal([c])] + ps
  }

  function Pieces(s: string): seq<Piece>
    decreases |s|
  {
    if s == "" then []
    else
      match Match(s)
      case Some(h) => [Tag(s[..h.length], h.name)] + Pieces(s[h.length..])
      case None => Push(s[0], Pieces(s[1..]))
  }

  function Print(ps: seq<Piece>): string {
    if ps == [] then "" else ps[0].text + Print(ps[1..])
  }

  lemma PushReads(s: string, ps: seq<Piece>)
    requires s != "" && NoTagHere(s) && IsReading(s[1..], ps)
    ensures IsReading(s, Push(s[0], ps))
  {
    var qs := Push(s[0], ps);
    if ps != [] && ps[0].Literal? {
      var text := ps[0].text;
      assert qs[0].text == [s[0]] + text && qs[1..] == ps[1..];
      assert s[|text| + 1..] == s[1..][|text|..];
      forall i | 0 <= i < |text| + 1 ensures NoTagHere(s[i..]) {
        if i == 0 { assert s[0..] == s; } else { assert s[i..] == s[1..][i - 1..]; }
      }
    } else {
      assert qs[0].text == [s[0]] && qs[1..] == ps;
      assert s[0..] == s;
    }
  }

  lemma {:induction false} PiecesRead(s: string)
    ensures IsReading(s, Pieces(s))
    decreases |s|
  {
    if s != "" {
      MatchIsExact(s, 0, "");
      match Match(s)
      case Some(h) => MatchFindsTag(s); PiecesRead(s[h.length..]);
      case None => PiecesRead(s[1..]); PushReads(s, Pieces(s[1..]));
    }
  }

  /** A reading without its first character, if that belongs to a literal. */
  lemma ReadingTail(s: string, ps: seq<Piece>) returns (rest: seq<Piece>)
    requires IsReading(s, ps) && ps != [] && ps[0].Literal?
    ensures s != "" && NoTagHere(s) && IsReading(s[1..], rest) && ps == Push(s[0], rest)
  {
    var text := ps[0].text;
    assert s[0..] == s;
    if |text| == 1 {
      rest := ps[1..];
      assert text == [s[0]] && ps == [Literal(text)] + rest;
    } else {
      rest := [Literal(text[1..])] + ps[1..];
      assert rest[1..] == ps[1..] && text == [s[0]] + text[1..];
      assert s[1..][|text| - 1..] == s[|text|..];
      forall i | 0 <= i < |text| - 1 ensures NoTagHere(s[1..][i..]) { assert s[1..][i..] == s[i + 1..]; }
      assert ps == [Literal(text)] + ps[1..];
    }
  }

  lemma ReadingHead(s: string, ps: seq<Piece>)
    requires IsReading(s, ps) && ps != [] && ps[0].Tag?
    ensures var n := |ps[0].text|;
            0 < n <= |s| && s[..n] == ps[0].text && IsReading(s[n..], ps[1..]) && Match(s) == Some(Hit(ps[0].name, n))
  {
    TagIsMatched(s, |ps[0].text|, ps[0].name);
  }

  lemma PiecesUnfold(s: string)
    requires s != ""
    ensures NoTagHere(s) ==> Pieces(s) == Push(s[0], Pieces(s[1..]))
    ensures forall h | Match(s) == Some(h) :: Pieces(s) == [Tag(s[..h.length], h.name)] + Pieces(s[h.length..])
  {
    MatchIsExact(s, 0, "");
  }

  lemma {:induction false} ReadingsAgree(s: string, ps: seq<Piece>)
    requires IsReading(s, ps)
    ensures ps == Pieces(s)
    decreases |s|
  {
    if ps == [] {
    } else if ps[0].Tag? {
      ReadingHead(s, ps);
      PiecesUnfold(s);
      ReadingsAgree(s[|ps[0].text|..], ps[1..]);
      assert ps == [ps[0]] + ps[1..];
    } else {
      var rest := ReadingTail(s, ps);
      PiecesUnfold(s);
      ReadingsAgree(s[1..], rest);
    }
  }

  /** Every template has exactly one reading, and a reading printed back gives the template. */
  lemma OneReading(s: string, ps: seq<Piece>)
    ensures IsReading(s, ps) <==> ps == Pieces(s)
    ensures Print(Pieces(s)) == s
  {
    PiecesRead(s);
    if IsReading(s, ps) { ReadingsAgree(s, ps); }
    PrintOfReading(s, Pieces(s));
  }

  lemma {:induction false} PrintOfReading(s: string, ps: seq<Piece>)
    requires IsReading(s, ps)
    ensures Print(ps) == s
    decreases |ps|
  {
    if ps != [] { PrintOfReading(s[|ps[0].text|..], ps[1..]); }
  }

  // ----- Rendering -----

  type Context = map<string, Option<string>>

  const UNSUBSCRIBE := "unsubscribe_url"

  function EscapeChar(c: char): string {
    if c == '&' then "&amp;"
    else if c == '<' then "&lt;"
    else if c == '>' then "&gt;"
    else if c == '\'' then "&#39;"
    else if c == '"' then "&#34;"
    else [c]
  }

  function Escape(v: string): string {
    if v == "" then "" else EscapeChar(v[0]) + Escape(v[1..])
  }

  /** Unknown names and missing values come out empty. */
  function Raw(ctx: Context, name: string): string {
    if name in ctx && ctx[name].Some? then ctx[name].value else ""
  }

  /** What replaces a tag. */
  function Value(ctx: Context, name: string, html: bool): string {
    if html then Escape(Raw(ctx, name)) else Raw(ctx, name)
  }

  /** One pass over the template from the left, as a substitution by regular expression makes it. */
  function Render(body: string, ctx: Context, html: bool): string
    decreases |body|
  {
    if body == "" then ""
    else
      match Match(body)
      case Some(h) => Value(ctx, h.name, html) + Render(body[h.length..], ctx, html)
      case None => [body[0]] + Render(body[1..], ctx, html)
  }

  function FindTags(body: string): set<string>
    decreases |body|
  {
    if body == "" then {}
    else
      match Match(body)
      case Some(h) => {h.name} + FindTags(body[h.length..])
      case None => FindTags(body[1..])
  }

  predicate HasUnsubscribe(body: string) {
    UNSUBSCRIBE in FindTags(body)
  }

  function BuildContext(email: string, first: Option<string>, last: Option<string>, url: string,
                        custom: Context): Context {
    custom + map["email" := Some(email), "first_name" := Some(FirstTruthy(first, None, "")),
                 "last_name" := Some(FirstTruthy(last, None, "")), UNSUBSCRIBE := Some(url)]
  }

  /** The pieces put together again, with each tag's value in its place. */
  function Fill(ps: seq<Piece>, ctx: Context, html: bool): string {
    if ps == [] then ""
    else (match ps[0] case Literal(text) => text case Tag(_, name) => Value(ctx, name, html)) + Fill(ps[1..], ctx, html)
  }

  lemma FillPush(c: char, ps: seq<Piece>, ctx: Context, html: bool)
    ensures Fill(Push(c, ps), ctx, html) == [c] + Fill(ps, ctx, html)
  {
    var qs := Push(c, ps);
    if ps != [] && ps[0].Literal? { assert qs[1..] == ps[1..]; } else { assert qs[1..] == ps; }
  }

  /**
   Rendering fills the reading of the template, once: a value is copied as it is, so that a tag inside a value is
   never expanded.
   */
  lemma {:induction false} RenderFillsReading(body: string, ctx: Context, html: bool)
    ensures Render(body, ctx, html) == Fill(Pieces(body), ctx, html)
    decreases |body|
  {
    if body != "" {
      match Match(body)
      case Some(h) =>
        RenderFillsReading(body[h.length..], ctx, html);
        assert Pieces(body)[1..] == Pieces(body[h.length..]);
      case None =>
        RenderFillsReading(body[1..], ctx, html);
        FillPush(body[0], Pieces(body[1..]), ctx, html);
    }
  }

  lemma NamesPush(c: char, ps: seq<Piece>, name: string)
    ensures (exists p :: p in Push(c, ps) && p.Tag? && p.name == name) <==>
              (exists p :: p in ps && p.Tag? && p.name == name)
  {
    var qs := Push(c, ps);
    if p :| p in ps && p.Tag? && p.name == name { assert p in qs; }
  }

  /** The tags found are those of the reading. */
  lemma {:induction false} TagsOfReading(body: string, name: string)
    ensures name in FindTags(body) <==> exists p :: p in Pieces(body) && p.Tag? && p.name == name
    decreases |body|
  {
    if body != "" {
      match Match(body)
      case Some(h) =>
        TagsOfReading(body[h.length..], name);
        var first := Tag(body[..h.length], h.name);
        assert Pieces(body) == [first] + Pieces(body[h.length..]);
        assert first in Pieces(body);
        if p :| p in Pieces(body[h.length..]) && p.Tag? && p.name == name { assert p in Pieces(body); }
      case None =>
        TagsOfReading(body[1..], name);
        NamesPush(body[0], Pieces(body[1..]), name);
    }
  }

  /** A tag the template mentions shows its value in the output. */
  lemma {:induction false} MentionedTagShows(body: string, ctx: Context, html: bool, name: string)
    returns (before: string, after: string)
    requires name in FindTags(body)
    ensures Render(body, ctx, html) == before + Value(ctx, name, html) + after
    decreases |body|
  {
    match Match(body)
    case Some(h) =>
      var rest := Render(body[h.length..], ctx, html);
      if h.name == name {
        before, after := "", rest;
      } else {
        var inner;
        inner, after := MentionedTagShows(body[h.length..], ctx, html, name);
        before := Value(ctx, h.name, html) + inner;
        Regroup(Value(ctx, h.name, html), inner, Value(ctx, name, html), after);
      }
    case None =>
      var inner;
      inner, after := MentionedTagShows(body[1..], ctx, html, name);
      before := [body[0]] + inner;
      Regroup([body[0]], inner, Value(ctx, name, html), after);
  }

  lemma Regroup(a: string, b: string, c: string, d: string)
    ensures a + (b + c + d) == (a + b) + c + d
  {
  }

  ghost predicate Contains(s: string, t: string) {
    exists i, j | 0 <= i <= j <= |s| :: s[i..j] == t
  }

  /** The promise of the unsubscribe check: whatever the contact's custom fields are, the link is in the message. */
  lemma UnsubscribeLinkShows(body: string, html: bool, email: string, first: Option<string>, last: Option<string>,
                             url: string, custom: Context)
    requires HasUnsubscribe(body)
    ensures Contains(Render(body, BuildContext(email, first, last, url, custom), html),
                     if html then Escape(url) else url)
  {
    var ctx := BuildContext(email, first, last, url, custom);
    var before, after := MentionedTagShows(body, ctx, html, UNSUBSCRIBE);
    assert Render(body, ctx, html)[|before|..|before| + |Value(ctx, UNSUBSCRIBE, html)|] == Value(ctx, UNSUBSCRIBE,
                                                                                                  html);
  }

  // ----- Values cannot add markup -----

  predicate IsMarkup(c: char) {
    c == '<' || c == '>' || c == '"' || c == '\''
  }

  /** The markup characters of a text, in order. */
  function Markup(s: string): string {
    if s == "" then "" else (if IsMarkup(s[0]) then [s[0]] else "") + Markup(s[1..])
  }

  lemma Associates(a: string, b: string, c: string)
    ensures a + (b + c) == (a + b) + c
  {
  }

  lemma {:induction false} MarkupConcat(s: string, t: string)
    ensures Markup(s + t) == Markup(s) + Markup(t)
  {
    if s == "" {
      assert s + t == t;
    } else {
      MarkupConcat(s[1..], t);
      assert (s + t)[1..] == s[1..] + t && (s + t)[0] == s[0];
      Associates(if IsMarkup(s[0]) then [s[0]] else "", Markup(s[1..]), Markup(t));
    }
  }

  lemma {:induction false} EscapeHasNoMarkup(v: string)
    ensures Markup(Escape(v)) == ""
  {
    if v != "" {
      var e := EscapeChar(v[0]);
      MarkupConcat(e, Escape(v[1..]));
      EscapeHasNoMarkup(v[1..]);
      NoMarkup(e);
    }
  }

  lemma NoMarkup(s: string)
    requires forall i | 0 <= i < |s| :: !IsMarkup(s[i])
    ensures Markup(s) == ""
  {
  }

  lemma TagHasNoMarkup(s: string)
    requires Match(s).Some?
    ensures Markup(s[..Match(s).value.length]) == ""
  {
    MatchFindsTag(s);
    NoMarkup(s[..Match(s).value.length]);
  }

  lemma MarkupOfHit(body: string, value: string, rest: string)
    requires Match(body).Some? && Markup(rest) == Markup(body[Match(body).value.length..])
    ensures Markup(Escape(value) + rest) == Markup(body)
  {
    var n := Match(body).value.length;
    assert body == body[..n] + body[n..];
    MarkupConcat(body[..n], body[n..]);
    TagHasNoMarkup(body);
    MarkupConcat(Escape(value), rest);
    EscapeHasNoMarkup(value);
  }

  /** In HTML the markup of a message is the markup of its template, whatever the values are. */
  lemma {:induction false} MarkupIsTheTemplates(body: string, ctx: Context)
    ensures Markup(Render(body, ctx, true)) == Markup(body)
    decreases |body|
  {
    if body != "" {
      match Match(body)
      case Some(h) =>
        MarkupIsTheTemplates(body[h.length..], ctx);
        MarkupOfHit(body, Raw(ctx, h.name), Render(body[h.length..], ctx, true));
      case None =>
        MarkupIsTheTemplates(body[1..], ctx);
        MarkupConcat([body[0]], Render(body[1..], ctx, true));
        MarkupConcat([body[0]], body[1..]);
        assert body == [body[0]] + body[1..];
    }
  }

  const REFERENCES: set<string> := {"&amp;", "&lt;", "&gt;", "&#39;", "&#34;"}

  ghost predicate StartsReference(s: string) {
    exists e :: e in REFERENCES && e <= s
  }

  /** An ampersand in an escaped value is always the start of a character reference. */
  lemma {:induction false} AmpersandsStartReferences(v: string, i: nat)
    requires i < |Escape(v)| && Escape(v)[i] == '&'
    ensures StartsReference(Escape(v)[i..])
  {
    var e, rest := EscapeChar(v[0]), Escape(v[1..]);
    if i >= |e| {
      AmpersandsStartReferences(v[1..], i - |e|);
      assert (e + rest)[i..] == rest[i - |e|..];
    } else {
      assert i == 0 && e in REFERENCES;
      assert e <= Escape(v)[0..];
    }
  }

  // ----- Values survive escaping -----

  /** What a reader of HTML makes of the five character references. */
  function Unescape(s: string): string
    decreases |s|
  {
    if s == "" then ""
    else if "&amp;" <= s then "&" + Unescape(s[5..])
    else if "&lt;" <= s then "<" + Unescape(s[4..])
    else if "&gt;" <= s then ">" + Unescape(s[4..])
    else if "&#39;" <= s then "'" + Unescape(s[5..])
    else if "&#34;" <= s then "\"" + Unescape(s[5..])
    else [s[0]] + Unescape(s[1..])
  }

  lemma UnescapeOne(c: char, rest: string)
    ensures Unescape(EscapeChar(c) + rest) == [c] + Unescape(rest)
  {
    var s := EscapeChar(c) + rest;
    assert s[|EscapeChar(c)|..] == rest;
    if c == '&' { assert s[1] == 'a'; }
    else if c == '<' { assert s[1] == 'l'; }
    else if c == '>' { assert s[1] == 'g'; }
    else if c == '\'' { assert s[1] == '#' && s[3] == '9'; }
    else if c == '"' { assert s[1] == '#' && s[3] == '4'; }
    else { assert s[0] == c; }
  }

  /** What a reader sees of an escaped value is the value. */
  lemma {:induction false} EscapeRoundTrip(v: string)
    ensures Unescape(Escape(v)) == v
  {
    if v != "" {
      EscapeRoundTrip(v[1..]);
      UnescapeOne(v[0], Escape(v[1..]));
    }
  }

  // ----- What the message of a recipient shows -----

  datatype Recipient = Recipient(email: string, first: Option<string>, last: Option<string>, url: string,
                                 custom: Context)

  /** The value a tag stands for: the four tags of every message, else the custom field, else nothing. */
  predicate StandsFor(r: Recipient, name: string, v: string) {
    if name == "email" then v == r.email
    else if name == "first_name" then v == (if r.first.Some? then r.first.value else "")
    else if name == "last_name" then v == (if r.last.Some? then r.last.value else "")
    else if name == "unsubscribe_url" then v == r.url
    else if name in r.custom && r.custom[name].Some? then v == r.custom[name].value
    else v == ""
  }

  /** How a piece of the template shows; in HTML the value is written so that it reads as itself and adds no markup. */
  ghost predicate Shows(r: Recipient, p: Piece, html: bool, shown: string) {
    match p
    case Literal(text) => shown == text
    case Tag(_, name) =>
      exists v :: StandsFor(r, name, v) && if html then Unescape(shown) == v && Markup(shown) == "" else shown == v
  }

  function Concat(parts: seq<string>): string {
    if parts == [] then "" else parts[0] + Concat(parts[1..])
  }

  function ContextOf(r: Recipient): Context {
    BuildContext(r.email, r.first, r.last, r.url, r.custom)
  }

  lemma ValueShows(r: Recipient, p: Piece, html: bool)
    requires p.Tag?
    ensures Shows(r, p, html, Value(ContextOf(r), p.name, html))
  {
    var v := Raw(ContextOf(r), p.name);
    assert StandsFor(r, p.name, v);
    EscapeRoundTrip(v);
    EscapeHasNoMarkup(v);
  }

  lemma {:induction false} FillShows(r: Recipient, ps: seq<Piece>, html: bool) returns (parts: seq<string>)
    ensures Fill(ps, ContextOf(r), html) == Concat(parts) && |parts| == |ps|
    ensures forall i | 0 <= i < |ps| :: Shows(r, ps[i], html, parts[i])
  {
    if ps == [] {
      parts := [];
    } else {
      var rest := FillShows(r, ps[1..], html);
      var first := match ps[0] case Literal(text) => text case Tag(_, name) => Value(ContextOf(r), name, html);
      if ps[0].Tag? { ValueShows(r, ps[0], html); }
      parts := [first] + rest;
      assert parts[1..] == rest;
    }
  }

  /** A rendered message is its template, piece by piece, with the recipient's own values for the tags. */
  lemma MessageShowsRecipient(r: Recipient, body: string, html: bool) returns (parts: seq<string>)
    ensures Render(body, ContextOf(r), html) == Concat(parts) && |parts| == |Pieces(body)|
    ensures forall i | 0 <= i < |parts| :: Shows(r, Pieces(body)[i], html, parts[i])
  {
    RenderFillsReading(body, ContextOf(r), html);
    parts := FillShows(r, Pieces(body), html);
  }
}
