/**
 * The value normalisers of app/lib.py: scraped fragments to `Owner` and
 * `Mailing`. The line parsers of the `lib.parse` package are parameters.
 */
module Normalize {
  import opened Wrappers
  import opened Schemas

  /** One child of a scraped HTML cell: a text node, or any other markup. */
  datatype Fragment = Text(s: string) | Markup

  /** Python's whitespace: what `str.strip()` removes and `\s` matches. */
  predicate IsSpace(c: char)
  {
    || c == ' ' || '\t' <= c <= '\r' || '\U{1C}' <= c <= '\U{1F}'
    || c == '\U{85}' || c == '\U{A0}' || c == '\U{1680}' || '\U{2000}' <= c <= '\U{200A}'
    || c == '\U{2028}' || c == '\U{2029}' || c == '\U{202F}' || c == '\U{205F}' || c == '\U{3000}'
  }

  /** `_clean_tags`: the text of the text nodes, in order. */
  function CleanTags(content: seq<Fragment>): (r: seq<string>)
    ensures |r| <= |content|
    ensures forall s :: s in r <==> Text(s) in content
  {
    if content == [] then []
    else (if content[0].Text? then [content[0].s] else []) + CleanTags(content[1..])
  }

  lemma {:induction false} CleanTagsAppend(a: seq<Fragment>, b: seq<Fragment>)
    ensures CleanTags(a + b) == CleanTags(a) + CleanTags(b)
  {
    if a != [] {
      assert (a + b)[0] == a[0];
      assert (a + b)[1..] == a[1..] + b;
      CleanTagsAppend(a[1..], b);
      var head := if a[0].Text? then [a[0].s] else [];
      calc {
        CleanTags(a + b);
        head + CleanTags(a[1..] + b);
        head + (CleanTags(a[1..]) + CleanTags(b));
        (head + CleanTags(a[1..])) + CleanTags(b);
      }
    } else {
      assert a + b == b;
    }
  }

  /** `str.lstrip()`. */
  function TrimStart(s: string): (r: string)
    ensures |r| <= |s| && r == s[|s| - |r|..]
    ensures forall i :: 0 <= i < |s| - |r| ==> IsSpace(s[i])
    ensures r != [] ==> !IsSpace(r[0])
  {
    if s != [] && IsSpace(s[0]) then TrimStart(s[1..]) else s
  }

  /** `str.rstrip()`. */
  function TrimEnd(s: string): (r: string)
    ensures |r| <= |s| && r == s[..|r|]
    ensures forall i :: |r| <= i < |s| ==> IsSpace(s[i])
    ensures r != [] ==> !IsSpace(r[|r| - 1])
  {
    if s != [] && IsSpace(s[|s| - 1]) then TrimEnd(s[..|s| - 1]) else s
  }

  /** `str.strip()`. */
  function Strip(s: string): (r: string)
    ensures r != [] ==> !IsSpace(r[0]) && !IsSpace(r[|r| - 1])
  {
    TrimEnd(TrimStart(s))
  }

  /** The characters of `s` that are not whitespace, in order. */
  function Visible(s: string): string
  {
    if s == [] then [] else (if IsSpace(s[0]) then [] else [s[0]]) + Visible(s[1..])
  }

  /** Every whitespace character is a plain space with no whitespace after it. */
  predicate SingleSpaced(t: string)
  {
    forall i :: 0 <= i < |t| && IsSpace(t[i]) ==> t[i] == ' ' && (i + 1 < |t| ==> !IsSpace(t[i + 1]))
  }

  /** `_clean_whitespace`: `re.sub(r"\s+", " ", text)`, each whitespace run becomes one space. */
  function CleanWhitespace(text: string): (r: string)
    ensures |r| <= |text|
    decreases |text|
  {
    if text == [] then []
    else if IsSpace(text[0]) then " " + CleanWhitespace(TrimStart(text[1..]))
    else [text[0]] + CleanWhitespace(text[1..])
  }

  lemma {:induction false} CleanWhitespaceIsSingleSpaced(text: string)
    ensures SingleSpaced(CleanWhitespace(text))
    decreases |text|
  {
    if text == [] {
    } else if IsSpace(text[0]) {
      var rest := TrimStart(text[1..]);
      CleanWhitespaceIsSingleSpaced(rest);
      var r := CleanWhitespace(rest);
      assert rest != [] ==> r[0] == rest[0];
      assert CleanWhitespace(text) == " " + r;
    } else {
      CleanWhitespaceIsSingleSpaced(text[1..]);
      assert CleanWhitespace(text) == [text[0]] + CleanWhitespace(text[1..]);
    }
  }

  lemma {:induction false} CleanWhitespaceKeepsSingleSpaced(text: string)
    requires SingleSpaced(text)
    ensures CleanWhitespace(text) == text
    decreases |text|
  {
    if text != [] {
      assert SingleSpaced(text[1..]) by {
        forall i | 0 <= i < |text[1..]| && IsSpace(text[1..][i])
          ensures text[1..][i] == ' ' && (i + 1 < |text[1..]| ==> !IsSpace(text[1..][i + 1]))
        {
          assert text[1..][i] == text[i + 1];
        }
      }
      CleanWhitespaceKeepsSingleSpaced(text[1..]);
      if IsSpace(text[0]) {
        assert TrimStart(text[1..]) == text[1..];
        assert text == " " + text[1..];
      } else {
        assert text == [text[0]] + text[1..];
      }
    }
  }

  /** The collapse changes its input exactly when the input is not single-spaced. */
  lemma CleanWhitespaceUnchangedIff(text: string)
    ensures CleanWhitespace(text) == text <==> SingleSpaced(text)
  {
    CleanWhitespaceIsSingleSpaced(text);
    if SingleSpaced(text) {
      CleanWhitespaceKeepsSingleSpaced(text);
    }
  }

  /** Leading whitespace is skipped up to the first non-space character. */
  lemma {:induction false} TrimStartSkipsRun(w: string, b: string)
    requires forall i :: 0 <= i < |w| ==> IsSpace(w[i])
    requires b == [] || !IsSpace(b[0])
    ensures TrimStart(w + b) == b
  {
    if w == [] {
      assert w + b == b;
    } else {
      assert (w + b)[0] == w[0];
      assert (w + b)[1..] == w[1..] + b;
      TrimStartSkipsRun(w[1..], b);
    }
  }

  /** Trimming a text that ends in a non-space character never reaches what follows it. */
  lemma {:induction false} TrimStartAppend(x: string, t: string)
    requires x != [] && !IsSpace(x[|x| - 1])
    ensures TrimStart(x + t) == TrimStart(x) + t
  {
    assert (x + t)[0] == x[0];
    if IsSpace(x[0]) {
      assert (x + t)[1..] == x[1..] + t;
      TrimStartAppend(x[1..], t);
    }
  }

  /** The collapse works run by run: it splits after any non-space character. */
  lemma {:induction false} CleanWhitespaceAppend(a: string, t: string)
    requires a == [] || !IsSpace(a[|a| - 1])
    ensures CleanWhitespace(a + t) == CleanWhitespace(a) + CleanWhitespace(t)
    decreases |a|
  {
    if a == [] {
      assert a + t == t;
    } else if IsSpace(a[0]) {
      CleanWhitespaceSpaceHead(a, t);
      CleanWhitespaceAppend(TrimStart(a[1..]), t);
      ConsAppend(" ", TrimStart(a[1..]), t);
    } else {
      CleanWhitespaceCharHead(a, t);
      CleanWhitespaceAppend(a[1..], t);
      ConsAppend([a[0]], a[1..], t);
    }
  }

  /** Adding a fixed prefix commutes with splitting the collapse. */
  lemma ConsAppend(h: string, y: string, t: string)
    requires CleanWhitespace(y + t) == CleanWhitespace(y) + CleanWhitespace(t)
    ensures h + CleanWhitespace(y + t) == (h + CleanWhitespace(y)) + CleanWhitespace(t)
  {
  }

  /** One step of `CleanWhitespaceAppend` over a leading whitespace run. */
  lemma CleanWhitespaceSpaceHead(a: string, t: string)
    requires a != [] && IsSpace(a[0]) && !IsSpace(a[|a| - 1])
    ensures var y := TrimStart(a[1..]);
      && |y| < |a| && y != [] && !IsSpace(y[|y| - 1])
      && CleanWhitespace(a + t) == " " + CleanWhitespace(y + t)
      && CleanWhitespace(a) == " " + CleanWhitespace(y)
  {
    var x := a[1..];
    assert (a + t)[0] == a[0];
    assert (a + t)[1..] == x + t;
    TrimStartAppend(x, t);
    var y := TrimStart(x);
    assert x[|x| - 1] == a[|a| - 1];
  }

  /** One step of `CleanWhitespaceAppend` over a leading non-space character. */
  lemma CleanWhitespaceCharHead(a: string, t: string)
    requires a != [] && !IsSpace(a[0]) && !IsSpace(a[|a| - 1])
    ensures a[1..] == [] || !IsSpace(a[1..][|a[1..]| - 1])
    ensures CleanWhitespace(a + t) == [a[0]] + CleanWhitespace(a[1..] + t)
    ensures CleanWhitespace(a) == [a[0]] + CleanWhitespace(a[1..])
  {
    assert (a + t)[0] == a[0];
    assert (a + t)[1..] == a[1..] + t;
  }

  /**
   * `re.sub(r"\s+", " ", ...)` replaces each maximal whitespace run, however
   * long, by exactly one space, and leaves the text on both sides alone.
   */
  lemma {:induction false} CleanWhitespaceCollapsesRun(a: string, w: string, b: string)
    requires a == [] || !IsSpace(a[|a| - 1])
    requires w != [] && forall i :: 0 <= i < |w| ==> IsSpace(w[i])
    requires b == [] || !IsSpace(b[0])
    ensures CleanWhitespace(a + w + b) == CleanWhitespace(a) + " " + CleanWhitespace(b)
  {
    var wb := w + b;
    assert a + w + b == a + wb;
    CleanWhitespaceAppend(a, wb);
    CleanWhitespaceRun(w, b);
    SpaceBetween(CleanWhitespace(a), CleanWhitespace(b));
  }

  lemma SpaceBetween(x: string, y: string)
    ensures x + (" " + y) == x + " " + y
  {
  }

  /** A leading run becomes one space. */
  lemma {:induction false} CleanWhitespaceRun(w: string, b: string)
    requires w != [] && forall i :: 0 <= i < |w| ==> IsSpace(w[i])
    requires b == [] || !IsSpace(b[0])
    ensures CleanWhitespace(w + b) == " " + CleanWhitespace(b)
  {
    assert (w + b)[0] == w[0];
    assert (w + b)[1..] == w[1..] + b;
    TrimStartSkipsRun(w[1..], b);
  }

  lemma {:induction false} VisibleAppend(a: string, b: string)
    ensures Visible(a + b) == Visible(a) + Visible(b)
  {
    if a != [] {
      assert (a + b)[0] == a[0];
      assert (a + b)[1..] == a[1..] + b;
      VisibleAppend(a[1..], b);
      var head := if IsSpace(a[0]) then [] else [a[0]];
      calc {
        Visible(a + b);
        head + Visible(a[1..] + b);
        head + (Visible(a[1..]) + Visible(b));
        (head + Visible(a[1..])) + Visible(b);
      }
    } else {
      assert a + b == b;
    }
  }

  lemma {:induction false} VisibleOfSpaces(s: string)
    requires forall i :: 0 <= i < |s| ==> IsSpace(s[i])
    ensures Visible(s) == []
  {
    if s != [] {
      VisibleOfSpaces(s[1..]);
    }
  }

  lemma {:induction false} VisibleTrimStart(s: string)
    ensures Visible(TrimStart(s)) == Visible(s)
  {
    if s != [] && IsSpace(s[0]) {
      VisibleTrimStart(s[1..]);
      assert Visible(s) == [] + Visible(s[1..]);
    }
  }

  lemma {:induction false} VisibleTrimEnd(s: string)
    ensures Visible(TrimEnd(s)) == Visible(s)
  {
    var r := TrimEnd(s);
    assert s == r + s[|r|..];
    VisibleAppend(r, s[|r|..]);
    VisibleOfSpaces(s[|r|..]);
  }

  /** Stripping removes whitespace only. */
  lemma VisibleStrip(s: string)
    ensures Visible(Strip(s)) == Visible(s)
  {
    VisibleTrimStart(s);
    VisibleTrimEnd(TrimStart(s));
  }

  /** The collapse removes and inserts whitespace only. */
  lemma {:induction false} VisibleCleanWhitespace(text: string)
    ensures Visible(CleanWhitespace(text)) == Visible(text)
    decreases |text|
  {
    if text != [] {
      assert text == [text[0]] + text[1..];
      VisibleAppend([text[0]], text[1..]);
      if IsSpace(text[0]) {
        var rest := TrimStart(text[1..]);
        VisibleCleanWhitespace(rest);
        VisibleTrimStart(text[1..]);
        VisibleAppend(" ", CleanWhitespace(rest));
      } else {
        VisibleCleanWhitespace(text[1..]);
        VisibleAppend([text[0]], CleanWhitespace(text[1..]));
      }
    }
  }

  /** `sep.join(parts)`. */
  function Join(sep: string, parts: seq<string>): string
  {
    if |parts| == 0 then ""
    else if |parts| == 1 then parts[0]
    else parts[0] + sep + Join(sep, parts[1..])
  }

  /** `[o.strip() for o in parts]`. */
  function StripAll(parts: seq<string>): (r: seq<string>)
    ensures |r| == |parts|
  {
    if parts == [] then [] else [Strip(parts[0])] + StripAll(parts[1..])
  }

  lemma {:induction false} StripAllAt(parts: seq<string>, k: nat)
    requires k < |parts|
    ensures StripAll(parts)[k] == Strip(parts[k])
  {
    if k > 0 {
      var rest := parts[1..];
      assert rest[k - 1] == parts[k];
      StripAllAt(rest, k - 1);
      StripAllTail(parts);
    }
  }

  lemma StripAllTail(parts: seq<string>)
    requires parts != []
    ensures StripAll(parts)[0] == Strip(parts[0]) && StripAll(parts)[1..] == StripAll(parts[1..])
  {
  }

  function VisibleAll(parts: seq<string>): (r: seq<string>)
    ensures |r| == |parts|
  {
    if parts == [] then [] else [Visible(parts[0])] + VisibleAll(parts[1..])
  }

  /** Joining stripped parts with " & " keeps their visible text, separated by '&'. */
  lemma VisibleSeparator()
    ensures Visible(" & ") == "&"
  {
    assert " & "[1..] == "& ";
    assert "& "[1..] == " ";
    assert " "[1..] == "";
  }

  lemma {:induction false} VisibleJoinStripped(parts: seq<string>)
    ensures Visible(Join(" & ", StripAll(parts))) == Join("&", VisibleAll(parts))
  {
    if |parts| == 1 {
      VisibleStrip(parts[0]);
      assert StripAll(parts) == [Strip(parts[0])];
    } else if |parts| > 1 {
      var first := Strip(parts[0]);
      var joined := Join(" & ", StripAll(parts[1..]));
      assert Join(" & ", StripAll(parts)) == first + " & " + joined;
      VisibleJoinStripped(parts[1..]);
      VisibleStrip(parts[0]);
      VisibleJoinStep(first, joined);
      var visible := VisibleAll(parts);
      assert visible[1..] == VisibleAll(parts[1..]);
      assert Join("&", visible) == Visible(parts[0]) + "&" + Join("&", VisibleAll(parts[1..]));
    }
  }

  /** The visible text across one " & " separator. */
  lemma VisibleJoinStep(first: string, joined: string)
    ensures Visible(first + " & " + joined) == Visible(first) + "&" + Visible(joined)
  {
    VisibleAppend(first + " & ", joined);
    VisibleAppend(first, " & ");
    VisibleSeparator();
  }

  /** Each part with its whitespace runs collapsed. */
  function CollapseAll(parts: seq<string>): (r: seq<string>)
    ensures |r| == |parts|
  {
    if parts == [] then [] else [CleanWhitespace(parts[0])] + CollapseAll(parts[1..])
  }

  /** A join of non-empty parts starts with the first part's first character. */
  lemma JoinHead(sep: string, parts: seq<string>)
    requires |parts| > 0 && parts[0] != []
    ensures Join(sep, parts) != [] && Join(sep, parts)[0] == parts[0][0]
  {
  }

  /**
   * Collapsing a " & "-join of stripped, non-empty names collapses each name on
   * its own and keeps every separator as exactly " & ".
   */
  lemma {:induction false} CleanWhitespaceJoin(parts: seq<string>)
    requires forall k :: 0 <= k < |parts| ==> parts[k] != [] && !IsSpace(parts[k][0]) && !IsSpace(parts[k][|parts[k]| - 1])
    ensures CleanWhitespace(Join(" & ", parts)) == Join(" & ", CollapseAll(parts))
  {
    if |parts| == 1 {
    } else if |parts| > 1 {
      var rest := parts[1..];
      assert forall k :: 0 <= k < |rest| ==> rest[k] == parts[k + 1];
      JoinHead(" & ", rest);
      CleanWhitespaceSeparator(parts[0], Join(" & ", rest));
      CleanWhitespaceJoin(rest);
      var collapsed := CollapseAll(parts);
      assert collapsed[1..] == CollapseAll(rest);
    }
  }

  /** The separator between two names survives the collapse as exactly " & ". */
  lemma {:induction false} CleanWhitespaceSeparator(first: string, joined: string)
    requires first != [] && !IsSpace(first[|first| - 1])
    requires joined != [] && !IsSpace(joined[0])
    ensures CleanWhitespace(first + " & " + joined) == CleanWhitespace(first) + " & " + CleanWhitespace(joined)
  {
    CleanWhitespaceBeforeSeparator(first, joined);
    CleanWhitespaceAfterSeparator(joined);
    ConcatSeparator(CleanWhitespace(first), CleanWhitespace(joined));
  }

  lemma CleanWhitespaceBeforeSeparator(first: string, joined: string)
    requires first != [] && !IsSpace(first[|first| - 1])
    ensures CleanWhitespace(first + " & " + joined) == CleanWhitespace(first) + " " + CleanWhitespace("& " + joined)
  {
    assert first + " & " + joined == first + " " + ("& " + joined);
    assert IsSpace(" "[0]);
    CleanWhitespaceCollapsesRun(first, " ", "& " + joined);
  }

  lemma CleanWhitespaceAfterSeparator(joined: string)
    requires joined != [] && !IsSpace(joined[0])
    ensures CleanWhitespace("& " + joined) == "&" + " " + CleanWhitespace(joined)
  {
    assert "& " + joined == "&" + " " + joined;
    assert IsSpace(" "[0]);
    CleanWhitespaceCollapsesRun("&", " ", joined);
    CleanWhitespaceKeepsSingleSpaced("&");
  }

  lemma ConcatSeparator(x: string, y: string)
    ensures x + " " + ("&" + " " + y) == x + " & " + y
  {
    assert " " + ("&" + " " + y) == " & " + y;
  }

  /** The name before collapsing: the stripped texts joined with " & ". */
  function DirtyOwner(data: seq<Fragment>): string
  {
    Join(" & ", StripAll(CleanTags(data)))
  }

  /** `owner_from_raw`. */
  function OwnerFromRaw(data: seq<Fragment>): (r: Owner)
    ensures SingleSpaced(r.name)
    ensures r.isMultiEntity <==> |CleanTags(data)| > 1 || !SingleSpaced(DirtyOwner(data))
    ensures Visible(r.name) == Join("&", VisibleAll(CleanTags(data)))
    ensures r.name == CleanWhitespace(DirtyOwner(data))
  {
    var ownerList := CleanTags(data);
    var dirtyOwner := DirtyOwner(data);
    var cleanOwner := CleanWhitespace(dirtyOwner);
    CleanWhitespaceIsSingleSpaced(dirtyOwner);
    CleanWhitespaceUnchangedIff(dirtyOwner);
    VisibleCleanWhitespace(dirtyOwner);
    VisibleJoinStripped(ownerList);
    Owner(cleanOwner, |ownerList| > 1 || dirtyOwner != cleanOwner)
  }

  /**
   * The owner name: every owner text stripped, its inner whitespace runs
   * collapsed to single spaces, and the names joined by " & ", when no text
   * strips to nothing.
   */
  lemma OwnerNameJoinsCollapsedNames(data: seq<Fragment>)
    requires forall k :: 0 <= k < |CleanTags(data)| ==> Strip(CleanTags(data)[k]) != []
    ensures OwnerFromRaw(data).name == Join(" & ", CollapseAll(StripAll(CleanTags(data))))
  {
    var stripped := StripAll(CleanTags(data));
    forall k | 0 <= k < |stripped|
      ensures stripped[k] != [] && !IsSpace(stripped[k][0]) && !IsSpace(stripped[k][|stripped[k]| - 1])
    {
      StripAllAt(CleanTags(data), k);
    }
    CleanWhitespaceJoin(stripped);
  }

  /** The `lib.parse` line parsers the mailing normalisers call. */
  datatype LineParsers = LineParsers(
    mortgageDeliveryAddressLine: string -> DeliveryAddressLine,
    mortgageLastLine: (string, string) -> LastLine,
    generalDeliveryAddressLine: string -> DeliveryAddressLine,
    generalCityStateZip: string -> LastLine)

  /** `mailing_from_raw_tax`: delivery line, city/state, zip. */
  function MailingFromRawTax(data: seq<Fragment>, parse: LineParsers): (r: Result<Option<Mailing>>)
    ensures var l := CleanTags(data);
      && (r == Ok(None) <==> |l| == 0)
      && (r == Err(NotImplementedError) <==> |l| != 0 && |l| != 3)
      && (|l| == 3 ==> r == Ok(Some(Mailing(parse.mortgageDeliveryAddressLine(l[0]), parse.mortgageLastLine(l[1], l[2])))))
  {
    var addressList := CleanTags(data);
    if |addressList| == 3 then
      Ok(Some(Mailing(parse.mortgageDeliveryAddressLine(addressList[0]),
                      parse.mortgageLastLine(addressList[1], addressList[2]))))
    else if addressList == [] then Ok(None)
    else Err(NotImplementedError)
  }

  /**
   * `mailing_from_raw_general`: delivery line and city/state/zip, with an
   * attention line first when there are three. The attention field is set to
   * `re.sub(pattern, address_list[0], "")`, the substitution applied to the
   * empty string, which the pattern cannot match, so it is always "".
   */
  function MailingFromRawGeneral(data: seq<Fragment>, parse: LineParsers): (r: Result<Option<Mailing>>)
    ensures var l := CleanTags(data);
      && (r == Ok(None) <==> |l| == 0)
      && (r == Err(RuntimeError) <==> |l| != 0 && |l| != 2 && |l| != 3)
      && (|l| == 2 ==> r == Ok(Some(Mailing(parse.generalDeliveryAddressLine(l[0]), parse.generalCityStateZip(l[1])))))
      && (|l| == 3 ==> r.Ok? && r.value.Some? && r.value.value.delivery.attn == Some("")
                       && r.value.value.delivery == parse.generalDeliveryAddressLine(l[1]).(attn := Some(""))
                       && r.value.value.last == parse.generalCityStateZip(l[2]))
  {
    var addressList := CleanTags(data);
    if |addressList| == 2 then
      Ok(Some(Mailing(parse.generalDeliveryAddressLine(addressList[0]),
                      parse.generalCityStateZip(addressList[1]))))
    else if |addressList| == 3 then
      var deliveryLine := parse.generalDeliveryAddressLine(addressList[1]);
      var attn := "";  // re.sub(r"ATT(N|ENTION):?\s+", addressList[0], "")
      Ok(Some(Mailing(deliveryLine.(attn := Some(attn)), parse.generalCityStateZip(addressList[2]))))
    else if |addressList| == 0 then Ok(None)
    else Err(RuntimeError)
  }
}
