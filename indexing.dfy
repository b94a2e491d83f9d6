/**
 * The `Indexer` of `downloaders.py`: formats one record per downloaded item
 * from a template and appends it to the index file.
 */
module Indexing {
  import opened Wrappers
  import PyStr

  const UrlToken: string := "[URL]"
  const TitleToken: string := "[TITLE]"
  const PlatformToken: string := "[PLATFORM]"
  const DateToken: string := "[DATE]"
  const ArtistListToken: string := "[ARTIST_LIST]"
  const ArtistSeparator: string := ", "

  /**
   * The record `append_to_index` writes: the template with every `[URL]`,
   * then every `[TITLE]`, `[PLATFORM]`, `[DATE]` and `[ARTIST_LIST]`
   * replaced, in that order, followed by one newline.
   */
  function FormatRecord(format: string, url: string, title: string, platform: string,
                        date: string, artistList: seq<string>): (r: string)
    ensures |r| > 0 && r[|r| - 1] == '\n'
  {
    var withUrl := PyStr.ReplaceAll(format, UrlToken, url);
    var withTitle := PyStr.ReplaceAll(withUrl, TitleToken, title);
    var withPlatform := PyStr.ReplaceAll(withTitle, PlatformToken, platform);
    var withDate := PyStr.ReplaceAll(withPlatform, DateToken, date);
    var withArtists := PyStr.ReplaceAll(withDate, ArtistListToken, PyStr.JoinWith(artistList, ArtistSeparator));
    withArtists + "\n"
  }

  // ---------------------------------------------------------------------
  // Templates seen as literal text interleaved with tokens.

  datatype Token = UrlTok | TitleTok | PlatformTok | DateTok | ArtistListTok

  function TokenText(k: Token): (r: string)
    ensures |r| >= 2 && r[0] == '['
    ensures forall i :: 1 <= i < |r| ==> r[i] != '['
  {
    match k
    case UrlTok => UrlToken
    case TitleTok => TitleToken
    case PlatformTok => PlatformToken
    case DateTok => DateToken
    case ArtistListTok => ArtistListToken
  }

  /** The tokens already differ in their second character. */
  lemma TokensDifferAtSecondChar(j: Token, k: Token)
    requires j != k
    ensures TokenText(j)[1] != TokenText(k)[1]
  {
  }

  datatype Segment = Text(text: string) | Tok(token: Token)

  /** The values substituted for the tokens of one record. */
  datatype Fields = Fields(url: string, title: string, platform: string, date: string, artists: string)

  function FieldValue(f: Fields, k: Token): string {
    match k
    case UrlTok => f.url
    case TitleTok => f.title
    case PlatformTok => f.platform
    case DateTok => f.date
    case ArtistListTok => f.artists
  }

  predicate NoBracket(s: string) {
    forall i :: 0 <= i < |s| ==> s[i] != '['
  }

  /** The template text a list of segments spells. */
  function SegmentText(seg: Segment): string {
    match seg
    case Text(t) => t
    case Tok(k) => TokenText(k)
  }

  function SegmentValue(seg: Segment, f: Fields): string {
    match seg
    case Text(t) => t
    case Tok(k) => FieldValue(f, k)
  }

  function Render(segs: seq<Segment>): string {
    if segs == [] then "" else SegmentText(segs[0]) + Render(segs[1..])
  }

  /** The text obtained by putting each field value in place of its token. */
  function Expand(segs: seq<Segment>, f: Fields): string {
    if segs == [] then "" else SegmentValue(segs[0], f) + Expand(segs[1..], f)
  }

  predicate PlainTexts(segs: seq<Segment>) {
    forall i :: 0 <= i < |segs| ==> segs[i].Text? ==> NoBracket(segs[i].text)
  }

  /** The position of each token's pass in `append_to_index`. */
  function Pass(k: Token): nat {
    match k
    case UrlTok => 0
    case TitleTok => 1
    case PlatformTok => 2
    case DateTok => 3
    case ArtistListTok => 4
  }

  /** No `[` of `s` can start the text of token `k`, whatever follows `s`. */
  predicate FreeOf(s: string, k: Token) {
    PyStr.ClashFree(s, TokenText(k))
  }

  /** `s` cannot start any token whose pass comes after the pass of `k`. */
  predicate FreeOfLater(s: string, k: Token) {
    forall j: Token :: Pass(j) > Pass(k) ==> FreeOf(s, j)
  }

  predicate TextsFreeOf(segs: seq<Segment>, k: Token) {
    forall i :: 0 <= i < |segs| ==> segs[i].Text? ==> FreeOf(segs[i].text, k)
  }

  /** The literal text of the template holds no start of any token. */
  predicate LiteralTemplate(segs: seq<Segment>) {
    forall k: Token :: TextsFreeOf(segs, k)
  }

  /** Text without `[` cannot start a token. */
  lemma NoBracketIsFree(s: string, k: Token)
    requires NoBracket(s)
    ensures FreeOf(s, k)
  {
    PyStr.WithoutStartCharIsClashFree(s, TokenText(k));
  }

  lemma PlainTextsAreLiteral(segs: seq<Segment>)
    requires PlainTexts(segs)
    ensures LiteralTemplate(segs)
  {
    forall k: Token, i | 0 <= i < |segs| && segs[i].Text? ensures FreeOf(segs[i].text, k) {
      NoBracketIsFree(segs[i].text, k);
    }
  }

  /** The segments after one pass of `replace` for token `k`. */
  function Substitute(segs: seq<Segment>, k: Token, v: string): (r: seq<Segment>)
    ensures |r| == |segs|
  {
    if segs == [] then []
    else [if segs[0] == Tok(k) then Text(v) else segs[0]] + Substitute(segs[1..], k, v)
  }

  /** One token with its bracket-free tail passes through a scan for another token. */
  lemma ReplaceAllSkipsToken(t: string, b: string, pat: string, rep: string)
    requires |t| >= 2 && |pat| >= 2 && t[1] != pat[1]
    requires forall i :: 1 <= i < |t| ==> t[i] != pat[0]
    ensures PyStr.ReplaceAll(t + b, pat, rep) == t + PyStr.ReplaceAll(b, pat, rep)
  {
    var s := t + b;
    if |s| >= |pat| {
      assert s[..|pat|][1] == t[1];
      assert s[1..] == t[1..] + b;
      PyStr.ReplaceAllSkipsPrefix(t[1..], b, pat, rep);
      assert t == [t[0]] + t[1..];
    } else {
      PyStr.ReplaceAllShort(s, pat, rep);
      PyStr.ReplaceAllShort(b, pat, rep);
    }
  }

  /** One `replace` pass turns exactly the occurrences of token `k` into `v`. */
  lemma {:induction false} ReplacePassSubstitutes(segs: seq<Segment>, k: Token, v: string)
    requires TextsFreeOf(segs, k)
    ensures PyStr.ReplaceAll(Render(segs), TokenText(k), v) == Render(Substitute(segs, k, v))
    decreases |segs|
  {
    if segs != [] {
      var rest := segs[1..];
      assert TextsFreeOf(rest, k) by {
        forall i | 0 <= i < |rest| ensures rest[i].Text? ==> FreeOf(rest[i].text, k) {
          assert rest[i] == segs[i + 1];
        }
      }
      ReplacePassSubstitutes(rest, k, v);
      var pat := TokenText(k);
      match segs[0]
      case Text(t) =>
        assert FreeOf(t, k) by { assert segs[0].Text?; }
        PyStr.ReplaceAllSkipsClashFree(t, Render(rest), pat, v);
      case Tok(j) =>
        if j == k {
          PyStr.ReplaceAllAtFront(pat, Render(rest), v);
        } else {
          TokensDifferAtSecondChar(j, k);
          ReplaceAllSkipsToken(TokenText(j), Render(rest), pat, v);
        }
    }
  }

  /** A pass for `k` keeps the template free of token `j` when its value is. */
  lemma {:induction false} SubstituteKeepsFree(segs: seq<Segment>, k: Token, v: string, j: Token)
    requires TextsFreeOf(segs, j) && FreeOf(v, j)
    ensures TextsFreeOf(Substitute(segs, k, v), j)
    decreases |segs|
  {
    if segs != [] {
      var rest := segs[1..];
      assert TextsFreeOf(rest, j) by {
        forall i | 0 <= i < |rest| ensures rest[i].Text? ==> FreeOf(rest[i].text, j) {
          assert rest[i] == segs[i + 1];
        }
      }
      SubstituteKeepsFree(rest, k, v, j);
      var r := Substitute(segs, k, v);
      forall i | 0 <= i < |r| ensures r[i].Text? ==> FreeOf(r[i].text, j) {
        if i > 0 {
          assert r[i] == Substitute(rest, k, v)[i - 1];
        }
      }
    }
  }

  /** Substituting every token in the program's order yields the expansion. */
  lemma {:induction false} SubstituteAllIsExpand(segs: seq<Segment>, f: Fields)
    ensures Render(Substitute(Substitute(Substitute(Substitute(Substitute(segs,
      UrlTok, f.url), TitleTok, f.title), PlatformTok, f.platform), DateTok, f.date),
      ArtistListTok, f.artists)) == Expand(segs, f)
    decreases |segs|
  {
    if segs != [] {
      SubstituteAllIsExpand(segs[1..], f);
    }
  }

  /**
   * When no `[` in the literal text of the template can start a token, and
   * no `[` in a value can start a token replaced in a later pass, the record
   * is the template with each value put in place of its token, every
   * occurrence included, plus the newline. Values may hold other brackets,
   * as in a title `Song [Official Video]`.
   */
  lemma FormatRecordExpandsTemplate(segs: seq<Segment>, url: string, title: string,
                                    platform: string, date: string, artistList: seq<string>)
    requires LiteralTemplate(segs)
    requires FreeOfLater(url, UrlTok) && FreeOfLater(title, TitleTok)
    requires FreeOfLater(platform, PlatformTok) && FreeOfLater(date, DateTok)
    ensures FormatRecord(Render(segs), url, title, platform, date, artistList) ==
            Expand(segs, Fields(url, title, platform, date, PyStr.JoinWith(artistList, ArtistSeparator))) + "\n"
  {
    var artists := PyStr.JoinWith(artistList, ArtistSeparator);
    var f := Fields(url, title, platform, date, artists);
    assert TextsFreeOf(segs, UrlTok) && TextsFreeOf(segs, TitleTok) && TextsFreeOf(segs, PlatformTok);
    assert TextsFreeOf(segs, DateTok) && TextsFreeOf(segs, ArtistListTok);
    var s1 := Substitute(segs, UrlTok, url);
    ReplacePassSubstitutes(segs, UrlTok, url);
    SubstituteKeepsFree(segs, UrlTok, url, TitleTok);
    SubstituteKeepsFree(segs, UrlTok, url, PlatformTok);
    SubstituteKeepsFree(segs, UrlTok, url, DateTok);
    SubstituteKeepsFree(segs, UrlTok, url, ArtistListTok);
    var s2 := Substitute(s1, TitleTok, title);
    ReplacePassSubstitutes(s1, TitleTok, title);
    SubstituteKeepsFree(s1, TitleTok, title, PlatformTok);
    SubstituteKeepsFree(s1, TitleTok, title, DateTok);
    SubstituteKeepsFree(s1, TitleTok, title, ArtistListTok);
    var s3 := Substitute(s2, PlatformTok, platform);
    ReplacePassSubstitutes(s2, PlatformTok, platform);
    SubstituteKeepsFree(s2, PlatformTok, platform, DateTok);
    SubstituteKeepsFree(s2, PlatformTok, platform, ArtistListTok);
    var s4 := Substitute(s3, DateTok, date);
    ReplacePassSubstitutes(s3, DateTok, date);
    SubstituteKeepsFree(s3, DateTok, date, ArtistListTok);
    ReplacePassSubstitutes(s4, ArtistListTok, artists);
    SubstituteAllIsExpand(segs, f);
  }

  /** A template in which no token can start is written as it stands. */
  lemma FormatRecordOfPlainTemplate(format: string, url: string, title: string, platform: string,
                                    date: string, artistList: seq<string>)
    requires forall k: Token :: FreeOf(format, k)
    ensures FormatRecord(format, url, title, platform, date, artistList) == format + "\n"
  {
    var artists := PyStr.JoinWith(artistList, ArtistSeparator);
    assert FreeOf(format, UrlTok) && FreeOf(format, TitleTok) && FreeOf(format, PlatformTok);
    assert FreeOf(format, DateTok) && FreeOf(format, ArtistListTok);
    assert format + "" == format;
    PyStr.ReplaceAllSkipsClashFree(format, "", UrlToken, url);
    PyStr.ReplaceAllSkipsClashFree(format, "", TitleToken, title);
    PyStr.ReplaceAllSkipsClashFree(format, "", PlatformToken, platform);
    PyStr.ReplaceAllSkipsClashFree(format, "", DateToken, date);
    PyStr.ReplaceAllSkipsClashFree(format, "", ArtistListToken, artists);
  }

  /**
   * The replacements run one after another, so a value that itself holds a
   * later token is rewritten too: a title `[DATE]` becomes the date.
   */
  lemma TitleHoldingDateTokenBecomesDate(url: string, platform: string, date: string, artistList: seq<string>)
    requires FreeOf(date, ArtistListTok)
    ensures FormatRecord(TitleToken, url, DateToken, platform, date, artistList) == date + "\n"
  {
    var t := [Tok(TitleTok)];
    var d := [Tok(DateTok)];
    assert Render(t) == TitleToken;
    assert Render(d) == DateToken;
    assert Render([Text(DateToken)]) == DateToken;
    assert Render([Text(date)]) == date;
    ReplacePassSubstitutes(t, UrlTok, url);
    assert Substitute(t, UrlTok, url) == t;
    assert PyStr.ReplaceAll(TitleToken, UrlToken, url) == TitleToken;
    ReplacePassSubstitutes(t, TitleTok, DateToken);
    assert Substitute(t, TitleTok, DateToken) == [Text(DateToken)];
    assert PyStr.ReplaceAll(TitleToken, TitleToken, DateToken) == DateToken;
    ReplacePassSubstitutes(d, PlatformTok, platform);
    assert Substitute(d, PlatformTok, platform) == d;
    assert PyStr.ReplaceAll(DateToken, PlatformToken, platform) == DateToken;
    ReplacePassSubstitutes(d, DateTok, date);
    assert Substitute(d, DateTok, date) == [Text(date)];
    assert PyStr.ReplaceAll(DateToken, DateToken, date) == date;
    assert date + "" == date;
    PyStr.ReplaceAllSkipsClashFree(date, "", ArtistListToken, PyStr.JoinWith(artistList, ArtistSeparator));
  }
  /**
   * A token can also form across a value and the template text after it:
   * the title `[DA` before the text `TE]` becomes `[DATE]`, which the date
   * pass then replaces.
   */
  lemma TokenFormedAcrossValueAndText(url: string, platform: string, date: string, artistList: seq<string>)
    requires FreeOf(date, ArtistListTok)
    ensures FormatRecord(TitleToken + "TE]", url, "[DA", platform, date, artistList) == date + "\n"
  {
    var tail := Text("TE]");
    var t := [Tok(TitleTok), tail];
    var d := [Tok(DateTok)];
    assert NoBracket("TE]");
    NoBracketIsFree("TE]", UrlTok);
    NoBracketIsFree("TE]", TitleTok);
    assert [tail][1..] == [];
    assert Render([tail]) == "TE]" + "";
    assert t[1..] == [tail];
    assert Render(t) == TitleToken + "TE]";
    var joined := [Text("[DA"), tail];
    assert joined[1..] == [tail];
    assert Render(joined) == "[DA" + "TE]";
    assert "[DA" + "TE]" == DateToken;
    assert Render(d) == DateToken;
    assert Render([Text(date)]) == date;
    ReplacePassSubstitutes(t, UrlTok, url);
    assert Substitute(t, UrlTok, url) == t;
    ReplacePassSubstitutes(t, TitleTok, "[DA");
    assert Substitute(t, TitleTok, "[DA") == joined;
    ReplacePassSubstitutes(d, PlatformTok, platform);
    assert Substitute(d, PlatformTok, platform) == d;
    ReplacePassSubstitutes(d, DateTok, date);
    assert Substitute(d, DateTok, date) == [Text(date)];
    assert date + "" == date;
    PyStr.ReplaceAllSkipsClashFree(date, "", ArtistListToken, PyStr.JoinWith(artistList, ArtistSeparator));
  }


  lemma {:induction false} RenderConcat(a: seq<Segment>, b: seq<Segment>)
    ensures Render(a + b) == Render(a) + Render(b)
    decreases |a|
  {
    if a == [] {
      assert a + b == b;
    } else {
      assert (a + b)[1..] == a[1..] + b;
      RenderConcat(a[1..], b);
    }
  }

  lemma {:induction false} ExpandConcat(a: seq<Segment>, b: seq<Segment>, f: Fields)
    ensures Expand(a + b, f) == Expand(a, f) + Expand(b, f)
    decreases |a|
  {
    if a == [] {
      assert a + b == b;
    } else {
      assert (a + b)[1..] == a[1..] + b;
      ExpandConcat(a[1..], b, f);
    }
  }

  lemma PlainConcat(a: seq<Segment>, b: seq<Segment>)
    requires PlainTexts(a) && PlainTexts(b)
    ensures PlainTexts(a + b)
  {
  }

  /** Appending a piece of known text and expansion appends that text and that expansion. */
  lemma AppendPiece(a: seq<Segment>, p: seq<Segment>, f: Fields, text: string, value: string)
    requires PlainTexts(a) && PlainTexts(p)
    requires Render(p) == text && Expand(p, f) == value
    ensures PlainTexts(a + p)
    ensures Render(a + p) == Render(a) + text
    ensures Expand(a + p, f) == Expand(a, f) + value
  {
    PlainConcat(a, p);
    RenderConcat(a, p);
    ExpandConcat(a, p, f);
  }

  lemma ConcatAssoc(a: string, b: string, c: string)
    ensures a + (b + c) == a + b + c
  {
  }

  const Pipe: string := " | "

  /** `Tok(k)` after a ` | ` separator. */
  function PipeThen(k: Token): (segs: seq<Segment>)
    ensures PlainTexts(segs)
    ensures Render(segs) == Pipe + TokenText(k)
  {
    var segs := [Text(Pipe), Tok(k)];
    assert NoBracket(Pipe);
    assert segs[1..] == [Tok(k)] && segs[1..][1..] == [];
    assert Render(segs[1..]) == TokenText(k) + "";
    segs
  }

  /** Expanding `PipeThen(k)` gives the separator and the value of `k`. */
  lemma PipeThenExpands(k: Token, f: Fields)
    ensures Expand(PipeThen(k), f) == Pipe + FieldValue(f, k)
  {
    var segs := PipeThen(k);
    assert segs[1..] == [Tok(k)] && segs[1..][1..] == [];
    assert Expand(segs[1..], f) == FieldValue(f, k) + "";
  }

  lemma AppendPipe(a: seq<Segment>, k: Token, f: Fields)
    requires PlainTexts(a)
    ensures PlainTexts(a + PipeThen(k))
    ensures Render(a + PipeThen(k)) == Render(a) + (Pipe + TokenText(k))
    ensures Expand(a + PipeThen(k), f) == Expand(a, f) + (Pipe + FieldValue(f, k))
  {
    PipeThenExpands(k, f);
    AppendPiece(a, PipeThen(k), f, Pipe + TokenText(k), Pipe + FieldValue(f, k));
  }

  const PipeTemplate: string :=
    PlatformToken + Pipe + TitleToken + Pipe + UrlToken + Pipe + DateToken + Pipe + ArtistListToken

  /** The template `PipeTemplate` as segments. */
  /** Five tokens joined by ` | `, as segments: the text and the expansion follow the same shape. */
  lemma PipeSegments(k1: Token, k2: Token, k3: Token, k4: Token, k5: Token, f: Fields) returns (segs: seq<Segment>)
    ensures PlainTexts(segs)
    ensures Render(segs) ==
      TokenText(k1) + Pipe + TokenText(k2) + Pipe + TokenText(k3) + Pipe + TokenText(k4) + Pipe + TokenText(k5)
    ensures Expand(segs, f) ==
      FieldValue(f, k1) + Pipe + FieldValue(f, k2) + Pipe + FieldValue(f, k3) + Pipe + FieldValue(f, k4) + Pipe + FieldValue(f, k5)
  {
    var t1, t2, t3, t4, t5 := TokenText(k1), TokenText(k2), TokenText(k3), TokenText(k4), TokenText(k5);
    var v1, v2, v3, v4, v5 := FieldValue(f, k1), FieldValue(f, k2), FieldValue(f, k3), FieldValue(f, k4), FieldValue(f, k5);
    var head := [Tok(k1)];
    assert PlainTexts(head);
    assert head[1..] == [];
    assert Render(head) == t1 + "" == t1;
    assert Expand(head, f) == v1 + "" == v1;
    var s1 := head + PipeThen(k2);
    AppendPipe(head, k2, f);
    ConcatAssoc(t1, Pipe, t2);
    ConcatAssoc(v1, Pipe, v2);
    var s2 := s1 + PipeThen(k3);
    AppendPipe(s1, k3, f);
    ConcatAssoc(t1 + Pipe + t2, Pipe, t3);
    ConcatAssoc(v1 + Pipe + v2, Pipe, v3);
    var s3 := s2 + PipeThen(k4);
    AppendPipe(s2, k4, f);
    ConcatAssoc(t1 + Pipe + t2 + Pipe + t3, Pipe, t4);
    ConcatAssoc(v1 + Pipe + v2 + Pipe + v3, Pipe, v4);
    segs := s3 + PipeThen(k5);
    AppendPipe(s3, k5, f);
    ConcatAssoc(t1 + Pipe + t2 + Pipe + t3 + Pipe + t4, Pipe, t5);
    ConcatAssoc(v1 + Pipe + v2 + Pipe + v3 + Pipe + v4, Pipe, v5);
  }


  lemma PipeTemplateSegments(f: Fields) returns (segs: seq<Segment>)
    ensures PlainTexts(segs) && Render(segs) == PipeTemplate
    ensures Expand(segs, f) == f.platform + Pipe + f.title + Pipe + f.url + Pipe + f.date + Pipe + f.artists
  {
    segs := PipeSegments(PlatformTok, TitleTok, UrlTok, DateTok, ArtistListTok, f);
  }



  /**
   * The template `[PLATFORM] | [TITLE] | [URL] | [DATE] | [ARTIST_LIST]`
   * gives the five values joined by ` | `, the artists joined by `, `.
   */
  lemma PipeSeparatedRecord(url: string, title: string, platform: string, date: string, artistList: seq<string>)
    requires FreeOfLater(url, UrlTok) && FreeOfLater(title, TitleTok)
    requires FreeOfLater(platform, PlatformTok) && FreeOfLater(date, DateTok)
    ensures FormatRecord(PipeTemplate, url, title, platform, date, artistList)
            == platform + Pipe + title + Pipe + url + Pipe + date + Pipe + PyStr.JoinWith(artistList, ArtistSeparator) + "\n"
  {
    var f := Fields(url, title, platform, date, PyStr.JoinWith(artistList, ArtistSeparator));
    var segs := PipeTemplateSegments(f);
    PlainTextsAreLiteral(segs);
    FormatRecordExpandsTemplate(segs, url, title, platform, date, artistList);
  }

  /** The second characters of the token texts. */
  const TokenSecondChars: string := "UTPDA"

  /**
   * A `[` that is followed by a character no token has in second place
   * cannot start a token.
   */
  lemma BracketsOpeningNoToken(s: string, k: Token)
    requires forall i :: 0 <= i < |s| && s[i] == '[' ==> i + 1 < |s| && s[i + 1] !in TokenSecondChars
    ensures FreeOf(s, k)
  {
    var pat := TokenText(k);
    assert pat[1] in TokenSecondChars;
    forall i | 0 <= i < |s| ensures !PyStr.CouldBegin(pat, s[i..]) {
      if s[i] == '[' {
        assert s[i..][1] == s[i + 1];
      } else {
        assert s[i..][0] == s[i];
      }
    }
  }

  const BracketedTitle: string := "Song [Official Video]"

  /** A bracketed title is written as it stands in the pipe-separated record. */
  lemma BracketedTitleRecord(url: string, platform: string, date: string, artistList: seq<string>)
    requires FreeOfLater(url, UrlTok) && FreeOfLater(platform, PlatformTok) && FreeOfLater(date, DateTok)
    ensures FormatRecord(PipeTemplate, url, BracketedTitle, platform, date, artistList)
            == platform + Pipe + BracketedTitle + Pipe + url + Pipe + date + Pipe
               + PyStr.JoinWith(artistList, ArtistSeparator) + "\n"
  {
    forall k: Token ensures FreeOf(BracketedTitle, k) {
      forall i | 0 <= i < |BracketedTitle| && BracketedTitle[i] == '['
        ensures i + 1 < |BracketedTitle| && BracketedTitle[i + 1] !in TokenSecondChars
      {
        assert i == 5;
      }
      BracketsOpeningNoToken(BracketedTitle, k);
    }
    PipeSeparatedRecord(url, BracketedTitle, platform, date, artistList);
  }

  // ---------------------------------------------------------------------
  // The Indexer object.

  /** An index file opened for appending; it remembers the path it was opened on. */
  datatype FileHandle = FileHandle(path: string)

  /** One record appended to the file at `path`. */
  datatype Write = Write(path: string, text: string)

  class Indexer {
    var pathToIndexFile: string
    var indexingFormat: string
    var chosenDate: string
    var isOpen: bool
    var file: Option<FileHandle>
    /** Everything this indexer has appended to index files, oldest first. */
    var written: seq<Write>

    /** A handle only exists while open, and on the configured path. */
    ghost predicate Valid()
      reads this
    {
      file.Some? ==> isOpen && file.value.path == pathToIndexFile
    }

    /** `today` is the date the clock would give; it is used when no date is chosen. */
    constructor (pathToIndexFile: string, indexingFormat: string, chosenDate: Option<string>, today: string)
      ensures Valid()
      ensures this.pathToIndexFile == pathToIndexFile && this.indexingFormat == indexingFormat
      ensures this.chosenDate == chosenDate.GetOr(today)
      ensures !isOpen && file == None && written == []
    {
      this.pathToIndexFile := pathToIndexFile;
      this.indexingFormat := indexingFormat;
      if chosenDate.Some? {
        this.chosenDate := chosenDate.value;
      } else {
        this.chosenDate := today;
      }
      isOpen := false;
      file := None;
      written := [];
    }

    /** Closes, then adopts the new settings; the date is kept when none is chosen. */
    method CloseAndConfigure(pathToIndexFile: string, indexingFormat: string, chosenDate: Option<string>)
      requires Valid()
      modifies this
      ensures Valid()
      ensures !isOpen && file == None
      ensures this.pathToIndexFile == pathToIndexFile && this.indexingFormat == indexingFormat
      ensures this.chosenDate == chosenDate.GetOr(old(this.chosenDate))
      ensures written == old(written)
    {
      Close();
      this.pathToIndexFile := pathToIndexFile;
      this.indexingFormat := indexingFormat;
      if chosenDate.Some? {
        this.chosenDate := chosenDate.value;
      }
    }

    /**
     * Marks the indexer open before trying to open the file; `openSucceeds` is
     * whether the operating system let the file be opened for appending.
     * Already open: nothing happens.
     */
    method Open(openSucceeds: bool)
      requires Valid()
      modifies this`isOpen, this`file
      ensures Valid()
      ensures old(isOpen) ==> isOpen && file == old(file)
      ensures !old(isOpen) ==> isOpen && file == (if openSucceeds then Some(FileHandle(pathToIndexFile)) else None)
    {
      if isOpen {
        return;
      }
      isOpen := true;
      if openSucceeds {
        file := Some(FileHandle(pathToIndexFile));
      }
    }

    /** Closing is idempotent and always leaves no handle. */
    method Close()
      requires Valid()
      modifies this`isOpen, this`file
      ensures Valid()
      ensures !isOpen && file == None
      ensures !old(isOpen) ==> file == old(file)
    {
      if isOpen {
        isOpen := false;
        file := None;
      }
    }

    /**
     * Opens the file if needed, formats the record and appends it.
     * `openSucceeds` is the outcome of a fresh open and `writeSucceeds` the
     * outcome of the write; the result says whether the record was written.
     */
    method AppendToIndex(url: string, title: string, artistList: seq<string>, platform: string,
                         openSucceeds: bool, writeSucceeds: bool) returns (ok: bool)
      requires Valid()
      modifies this`isOpen, this`file, this`written
      ensures Valid() && isOpen
      ensures old(isOpen) ==> file == old(file)
      ensures !old(isOpen) ==> file == (if openSucceeds then Some(FileHandle(pathToIndexFile)) else None)
      ensures ok <==> file.Some? && writeSucceeds
      ensures written == old(written) +
        (if ok then [Write(pathToIndexFile, FormatRecord(indexingFormat, url, title, platform, chosenDate, artistList))]
         else [])
    {
      if !isOpen {
        Open(openSucceeds);
      }
      var formattedIndex := FormatRecord(indexingFormat, url, title, platform, chosenDate, artistList);
      if file.None? {
        return false;
      }
      if writeSucceeds {
        written := written + [Write(file.value.path, formattedIndex)];
        return true;
      }
      return false;
    }
  }
}
