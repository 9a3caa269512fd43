/**
 * The description-to-markup transform of the image handler: three global
 * replacements, `【` to `<strong>`, `】` to `</strong>`, and line feed to `<br/>`,
 * applied one after the other.
 */
module Markup {
  import opened Js

  const Open: char := '【'
  const Close: char := '】'
  const LineFeed: char := '\n'
  const StrongOpen := "<strong>"
  const StrongClose := "</strong>"
  const Break := "<br/>"

  /** `s.replace(/c/g, rep)` for a one-character pattern and a replacement
      without `$` patterns: every c replaced by rep, every other character kept. */
  function ReplaceAll(s: string, c: char, rep: string): (r: string)
    ensures c !in rep ==> c !in r
    ensures c !in s ==> r == s
  {
    if s == [] then []
    else (if s[0] == c then rep else [s[0]]) + ReplaceAll(s[1..], c, rep)
  }

  /** A character occurs in the result exactly when it is a kept character of
      s, or a character of rep and c occurs in s. */
  lemma {:induction false} ReplaceAllMembers(s: string, c: char, rep: string, x: char)
    ensures x in ReplaceAll(s, c, rep) <==> (x in s && x != c) || (c in s && x in rep)
    decreases |s|
  {
    if s != [] {
      ReplaceAllMembers(s[1..], c, rep, x);
      assert s == [s[0]] + s[1..];
    }
  }

  /** Replacing distributes over concatenation. */
  lemma {:induction false} ReplaceAllAppend(a: string, b: string, c: char, rep: string)
    ensures ReplaceAll(a + b, c, rep) == ReplaceAll(a, c, rep) + ReplaceAll(b, c, rep)
    decreases |a|
  {
    if a != [] {
      assert (a + b)[0] == a[0] && (a + b)[1..] == a[1..] + b;
      ReplaceAllAppend(a[1..], b, c, rep);
    } else {
      assert a + b == b;
    }
  }

  /** None of the replacement texts holds a character that is replaced. */
  lemma MarkupTagsPlain()
    ensures Open !in StrongClose && Open !in Break && Close !in Break
    ensures Close !in StrongOpen && LineFeed !in StrongOpen && LineFeed !in StrongClose
  {
  }

  /** `description.replace(/【/g, '<strong>').replace(/】/g, '</strong>').replace(/\n/g, '<br/>')` */
  function ToMarkup(d: string): (r: string)
    ensures Open !in r && Close !in r && LineFeed !in r
  {
    var s1 := ReplaceAll(d, Open, StrongOpen);
    var s2 := ReplaceAll(s1, Close, StrongClose);
    MarkupTagsPlain();
    ReplaceAllMembers(s1, Close, StrongClose, Open);
    ReplaceAllMembers(s2, LineFeed, Break, Open);
    ReplaceAllMembers(s2, LineFeed, Break, Close);
    ReplaceAll(s2, LineFeed, Break)
  }

  /** The markup of one character of the description. */
  function Tag(c: char): string {
    if c == Open then StrongOpen
    else if c == Close then StrongClose
    else if c == LineFeed then Break
    else [c]
  }

  /** Reference definition: the description's characters, each replaced by its
      markup, in one left-to-right pass. */
  function Charwise(d: string): string {
    if d == [] then [] else Tag(d[0]) + Charwise(d[1..])
  }

  /** The markup of a single character. */
  lemma ToMarkupOne(c: char)
    ensures ToMarkup([c]) == Tag(c)
  {
    var s1 := ReplaceAll([c], Open, StrongOpen);
    assert s1 == (if c == Open then StrongOpen else [c]) by {
      assert [c][1..] == [];
    }
    if c == Open {
      assert Close !in StrongOpen && LineFeed !in StrongOpen;
    } else {
      var s2 := ReplaceAll([c], Close, StrongClose);
      assert s2 == (if c == Close then StrongClose else [c]) by {
        assert [c][1..] == [];
      }
      if c == Close {
        assert LineFeed !in StrongClose;
      } else {
        assert ReplaceAll([c], LineFeed, Break) == (if c == LineFeed then Break else [c]) by {
          assert [c][1..] == [];
        }
      }
    }
  }

  /** The three-pass chain equals the one-pass reference: each character is
      replaced by its own markup, and every other character is kept, in order. */
  lemma {:induction false} ToMarkupIsCharwise(d: string)
    ensures ToMarkup(d) == Charwise(d)
    decreases |d|
  {
    if d == [] {
    } else {
      var c, rest := d[0], d[1..];
      assert d == [c] + rest;
      var s1 := ReplaceAll([c], Open, StrongOpen);
      var s2 := ReplaceAll(s1, Close, StrongClose);
      var t1 := ReplaceAll(rest, Open, StrongOpen);
      var t2 := ReplaceAll(t1, Close, StrongClose);
      ReplaceAllAppend([c], rest, Open, StrongOpen);
      ReplaceAllAppend(s1, t1, Close, StrongClose);
      ReplaceAllAppend(s2, t2, LineFeed, Break);
      assert ToMarkup(d) == ToMarkup([c]) + ToMarkup(rest);
      ToMarkupOne(c);
      ToMarkupIsCharwise(rest);
    }
  }

  /** Applying the transform to its own output changes nothing. */
  lemma ToMarkupIdempotent(d: string)
    ensures ToMarkup(ToMarkup(d)) == ToMarkup(d)
  {
  }

  /** A description without `【`, `】` or line feeds passes through unchanged. */
  lemma ToMarkupKeepsPlainText(d: string)
    requires Open !in d && Close !in d && LineFeed !in d
    ensures ToMarkup(d) == d
  {
  }

  /** Reads markup back: `<strong>`, `</strong>` and `<br/>` become `【`, `】`
      and a line feed, every other character stays. */
  function FromMarkup(s: string): string
    decreases |s|
  {
    if s == [] then []
    else if StartsWith(s, StrongOpen) then [Open] + FromMarkup(s[|StrongOpen|..])
    else if StartsWith(s, StrongClose) then [Close] + FromMarkup(s[|StrongClose|..])
    else if StartsWith(s, Break) then [LineFeed] + FromMarkup(s[|Break|..])
    else [s[0]] + FromMarkup(s[1..])
  }

  lemma FromMarkupTag(c: char, rest: string)
    requires c != '<'
    ensures FromMarkup(Tag(c) + rest) == [c] + FromMarkup(rest)
  {
    var s := Tag(c) + rest;
    if c == Open {
      assert s[..|StrongOpen|] == StrongOpen && s[|StrongOpen|..] == rest;
    } else if c == Close {
      assert s[1] == '/';
      assert !StartsWith(s, StrongOpen);
      assert s[..|StrongClose|] == StrongClose && s[|StrongClose|..] == rest;
    } else if c == LineFeed {
      assert s[1] == 'b';
      assert !StartsWith(s, StrongOpen) && !StartsWith(s, StrongClose);
      assert s[..|Break|] == Break && s[|Break|..] == rest;
    } else {
      assert s[0] == c && s[1..] == rest;
      assert !StartsWith(s, StrongOpen) && !StartsWith(s, StrongClose) && !StartsWith(s, Break);
    }
  }

  /** For a description without `<`, the markup can be read back into the
      description: no two such descriptions give the same markup. */
  lemma {:induction false} FromMarkupInvertsCharwise(d: string)
    requires '<' !in d
    ensures FromMarkup(Charwise(d)) == d
    decreases |d|
  {
    if d != [] {
      FromMarkupTag(d[0], Charwise(d[1..]));
      FromMarkupInvertsCharwise(d[1..]);
    }
  }

  lemma MarkupRoundTrip(d: string)
    requires '<' !in d
    ensures FromMarkup(ToMarkup(d)) == d
  {
    ToMarkupIsCharwise(d);
    FromMarkupInvertsCharwise(d);
  }

  /** The per-character reference distributes over concatenation. */
  lemma {:induction false} CharwiseAppend(a: string, b: string)
    ensures Charwise(a + b) == Charwise(a) + Charwise(b)
    decreases |a|
  {
    if a != [] {
      assert (a + b)[0] == a[0] && (a + b)[1..] == a[1..] + b;
      CharwiseAppend(a[1..], b);
    } else {
      assert a + b == b;
    }
  }

  /** With `<` allowed the transform is not injective: in any context, a line
      feed and the text `<br/>` give the same markup. */
  lemma ToMarkupMergesBreaks(a: string, b: string)
    ensures ToMarkup(a + "\n" + b) == ToMarkup(a + Break + b) && a + "\n" + b != a + Break + b
  {
    ToMarkupOne(LineFeed);
    ToMarkupKeepsPlainText(Break);
    ToMarkupIsCharwise([LineFeed]);
    ToMarkupIsCharwise(Break);
    ToMarkupIsCharwise(a + "\n" + b);
    ToMarkupIsCharwise(a + Break + b);
    CharwiseAppend(a, "\n");
    CharwiseAppend(a + "\n", b);
    CharwiseAppend(a, Break);
    CharwiseAppend(a + Break, b);
    assert |a + "\n" + b| != |a + Break + b|;
  }
}
