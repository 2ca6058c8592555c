/**
 * The CSS selector the plugin queries slides with: the configured element
 * names joined by commas, or "video,audio" when no names are configured.
 */
module Selector {
  import opened Wrappers

  /** The plugin's options object; `selectors` is None when the author gives none. */
  datatype Options = Options(selectors: Option<seq<string>>)

  /** The element names used when no selectors are configured. */
  const DefaultMediaSelectors: seq<string> := ["video", "audio"]

  /** `parts.join(sep)`: the parts with one separator between neighbours. */
  function Join(parts: seq<string>, sep: char): string
    decreases |parts|
  {
    if |parts| == 0 then ""
    else if |parts| == 1 then parts[0]
    else parts[0] + [sep] + Join(parts[1..], sep)
  }

  /** The pieces of `s` between separators; the inverse of Join. */
  function Split(s: string, sep: char): (r: seq<string>)
    ensures |r| >= 1
    ensures forall i :: 0 <= i < |r| ==> sep !in r[i]
    decreases |s|
  {
    if s == [] then [""]
    else
      var rest := Split(s[1..], sep);
      if s[0] == sep then [""] + rest
      else [[s[0]] + rest[0]] + rest[1..]
  }

  /** A string without separators is a single piece. */
  lemma {:induction false} SplitPiece(a: string, sep: char)
    requires sep !in a
    ensures Split(a, sep) == [a]
    decreases |a|
  {
    if a != [] {
      SplitPiece(a[1..], sep);
      assert [a[0]] + a[1..] == a;
    }
  }

  /** The pieces of every name in turn. */
  function SplitAll(parts: seq<string>, sep: char): (r: seq<string>)
    ensures |r| >= |parts|
    decreases |parts|
  {
    if parts == [] then [] else Split(parts[0], sep) + SplitAll(parts[1..], sep)
  }

  /** Splitting `a , b` yields the pieces of `a` followed by the pieces of `b`. */
  lemma {:induction false} SplitConcat(a: string, b: string, sep: char)
    ensures Split(a + [sep] + b, sep) == Split(a, sep) + Split(b, sep)
    decreases |a|
  {
    if a == [] {
      assert a + [sep] + b == [sep] + b;
      assert ([sep] + b)[1..] == b;
    } else {
      assert (a + [sep] + b)[1..] == a[1..] + [sep] + b;
      SplitConcat(a[1..], b, sep);
      var pa := Split(a[1..], sep);
      if a[0] != sep {
        assert (pa + Split(b, sep))[0] == pa[0];
        assert (pa + Split(b, sep))[1..] == pa[1..] + Split(b, sep);
      }
    }
  }

  /** Splitting a join gives the pieces of every joined name, in order. */
  lemma {:induction false} SplitJoinAll(parts: seq<string>, sep: char)
    requires |parts| > 0
    ensures Split(Join(parts, sep), sep) == SplitAll(parts, sep)
    decreases |parts|
  {
    if |parts| == 1 {
      assert parts[1..] == [];
    } else {
      SplitJoinAll(parts[1..], sep);
      SplitConcat(parts[0], Join(parts[1..], sep), sep);
    }
  }

  /** Names without separators are their own pieces. */
  lemma {:induction false} SplitAllPieces(parts: seq<string>, sep: char)
    requires forall i :: 0 <= i < |parts| ==> sep !in parts[i]
    ensures SplitAll(parts, sep) == parts
    decreases |parts|
  {
    if parts != [] {
      SplitPiece(parts[0], sep);
      SplitAllPieces(parts[1..], sep);
      assert [parts[0]] + parts[1..] == parts;
    }
  }

  /** Joining then splitting gives back every non-empty list of separator-free names. */
  lemma SplitJoin(parts: seq<string>, sep: char)
    requires |parts| > 0
    requires forall i :: 0 <= i < |parts| ==> sep !in parts[i]
    ensures Split(Join(parts, sep), sep) == parts
  {
    SplitJoinAll(parts, sep);
    SplitAllPieces(parts, sep);
  }

  /** Splitting then joining gives back every string. */
  lemma {:induction false} JoinSplit(s: string, sep: char)
    ensures Join(Split(s, sep), sep) == s
    decreases |s|
  {
    if s != [] {
      JoinSplit(s[1..], sep);
      var rest := Split(s[1..], sep);
      if s[0] == sep {
        assert ([""] + rest)[1..] == rest;
      } else {
        var r := [[s[0]] + rest[0]] + rest[1..];
        assert r[1..] == rest[1..];
        if |rest| > 1 {
          assert rest == [rest[0]] + rest[1..];
          assert Join(rest, sep) == rest[0] + [sep] + Join(rest[1..], sep);
        }
      }
    }
  }

  /** `options.selectors || DEFAULT_MEDIA_SELECTORS`; an options object that is itself absent has no selectors. */
  function ConfiguredSelectors(options: Option<Options>): (r: seq<string>)
    ensures options.None? || options.value.selectors.None? ==> r == DefaultMediaSelectors
    ensures options.Some? && options.value.selectors.Some? ==> r == options.value.selectors.value
  {
    match options
    case None => DefaultMediaSelectors
    case Some(o) =>
      match o.selectors
      case None => DefaultMediaSelectors
      case Some(names) => names
  }

  /** The default names join to `video,audio`. */
  lemma DefaultSelectorString()
    ensures Join(DefaultMediaSelectors, ',') == "video,audio"
  {
    var rest := DefaultMediaSelectors[1..];
    assert rest == ["audio"];
    assert Join(rest, ',') == "audio";
    assert "video" + [','] + "audio" == "video,audio";
  }

  /** What splitting a join gives back, for any list of names. */
  lemma JoinedPieces(names: seq<string>, sep: char)
    ensures |names| > 0 ==> Split(Join(names, sep), sep) == SplitAll(names, sep)
    ensures |names| > 0 && (forall i :: 0 <= i < |names| ==> sep !in names[i])
      ==> Split(Join(names, sep), sep) == names
  {
    if |names| > 0 {
      SplitJoinAll(names, sep);
      if forall i :: 0 <= i < |names| ==> sep !in names[i] {
        SplitAllPieces(names, sep);
      }
    }
  }

  /**
   * The selector string the plugin stores at construction. Since `Join` of
   * `Split` is the identity, the clauses below determine the string.
   */
  function MediaSelector(options: Option<Options>): (r: string)
    ensures options.None? || options.value.selectors.None? ==> r == "video,audio"
    ensures ConfiguredSelectors(options) == [] ==> r == ""
    ensures var names := ConfiguredSelectors(options);
      |names| > 0 ==> Split(r, ',') == SplitAll(names, ',')
    ensures var names := ConfiguredSelectors(options);
      |names| > 0 && (forall i :: 0 <= i < |names| ==> ',' !in names[i]) ==> Split(r, ',') == names
  {
    var names := ConfiguredSelectors(options);
    JoinedPieces(names, ',');
    DefaultSelectorString();
    Join(names, ',')
  }
}
