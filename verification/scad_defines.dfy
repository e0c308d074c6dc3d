/**
 * The OpenSCAD command-line assignments `-D 'name=value'` that the
 * generator passes to the renderer, joined by single spaces.  `ParseAll`
 * reads back the `-D 'name=value'` text this module renders: it is
 * the partner that shows the rendered string carries exactly the intended
 * assignments, in order.
 */
module ScadDefines {
  import opened Wrappers

  /** One `-D` assignment of an OpenSCAD variable. */
  datatype Define = Define(name: string, value: string)

  /** The assignment as one shell-quoted `-D` argument pair. */
  function Render(d: Define): string {
    "-D '" + d.name + "=" + d.value + "'"
  }

  /** The rendered assignments joined by single spaces, as `" ".join` does. */
  function RenderAll(ds: seq<Define>): (s: string)
    ensures |s| >= 7 * |ds| - 1
    decreases |ds|
  {
    if |ds| == 0 then ""
    else if |ds| == 1 then Render(ds[0])
    else Render(ds[0]) + " " + RenderAll(ds[1..])
  }

  /**
   * The joined text is empty for no assignments; otherwise it opens with
   * the first `-D '` and closes with the last assignment's quote.
   */
  lemma {:induction false} RenderAllFraming(ds: seq<Define>)
    ensures |ds| == 0 <==> RenderAll(ds) == ""
    ensures |ds| > 0 ==> RenderAll(ds)[..4] == "-D '" && RenderAll(ds)[|RenderAll(ds)| - 1] == '\''
    decreases |ds|
  {
    if |ds| > 1 {
      RenderAllFraming(ds[1..]);
      var s := RenderAll(ds);
      assert s == Render(ds[0]) + (" " + RenderAll(ds[1..]));
      assert s[..4] == Render(ds[0])[..4];
      assert s[|s| - 1] == RenderAll(ds[1..])[|RenderAll(ds[1..])| - 1];
    } else if |ds| == 1 {
      assert RenderAll(ds) == Render(ds[0]);
    }
  }

  /**
   * An assignment whose text survives the quoting: no `=` or quote in the
   * name and no quote in the value.
   */
  predicate Readable(d: Define) {
    ReadableName(d.name) && '\'' !in d.value
  }

  predicate ReadableName(name: string) {
    '=' !in name && '\'' !in name
  }

  /** Index of the first occurrence of `c` in `s`, if any. */
  function FirstIndex(s: string, c: char): (r: Option<nat>)
    ensures r.Some? ==> r.value < |s| && s[r.value] == c && c !in s[..r.value]
    ensures r.None? ==> c !in s
    decreases |s|
  {
    if |s| == 0 then None
    else if s[0] == c then Some(0)
    else
      match FirstIndex(s[1..], c)
      case None => None
      case Some(k) =>
        assert s[..k + 1] == [s[0]] + s[1..][..k];
        Some(k + 1)
  }

  lemma FirstIndexOfSeparator(a: string, c: char, b: string)
    requires c !in a
    ensures FirstIndex(a + [c] + b, c) == Some(|a|)
  {
    assert (a + [c] + b)[|a|] == c;
  }

  /**
   * Reads one `-D 'name=value'` assignment at the start of `s` and returns
   * it with the text after its closing quote; the value is everything
   * between the first `=` and that quote.
   */
  function ParseOne(s: string): (r: Option<(Define, string)>)
    ensures r.Some? ==> |r.value.1| < |s|
  {
    if |s| < 4 || s[..4] != "-D '" then None
    else
      var body := s[4..];
      match FirstIndex(body, '\'')
      case None => None
      case Some(close) =>
        var text := body[..close];
        match FirstIndex(text, '=')
        case None => None
        case Some(eq) => Some((Define(text[..eq], text[eq + 1..]), body[close + 1..]))
  }

  /** Reads a list of assignments separated by single spaces. */
  function ParseAll(s: string): (r: Option<seq<Define>>)
    decreases |s|
  {
    if |s| == 0 then Some([])
    else
      match ParseOne(s)
      case None => None
      case Some((d, rest)) =>
        if |rest| == 0 then Some([d])
        else if |rest| == 1 || rest[0] != ' ' then None
        else
          match ParseAll(rest[1..])
          case None => None
          case Some(ds) => Some([d] + ds)
  }

  /** A readable assignment is read back whole, whatever follows it. */
  lemma ParseOneRender(d: Define, tail: string)
    requires Readable(d)
    ensures ParseOne(Render(d) + tail) == Some((d, tail))
  {
    var text := d.name + "=" + d.value;
    var s := Render(d) + tail;
    assert s == "-D '" + (text + ['\''] + tail);
    var body := s[4..];
    assert body == text + ['\''] + tail;
    FirstIndexOfSeparator(text, '\'', tail);
    assert body[..|text|] == text;
    assert body[|text| + 1..] == tail;
    FirstIndexOfSeparator(d.name, '=', d.value);
    assert text == d.name + ['='] + d.value;
    assert text[..|d.name|] == d.name;
    assert text[|d.name| + 1..] == d.value;
  }

  /** An assignment with nothing after it reads as a one-element list. */
  lemma ParseAllLast(s: string, d: Define)
    requires ParseOne(s) == Some((d, ""))
    ensures ParseAll(s) == Some([d])
  {
  }

  /** An assignment followed by a space and a readable rest reads as that assignment and the rest. */
  lemma ParseAllCons(s: string, d: Define, rest: string)
    requires ParseOne(s) == Some((d, " " + rest)) && |rest| > 0
    ensures ParseAll(rest).Some? ==> ParseAll(s) == Some([d] + ParseAll(rest).value)
  {
    assert (" " + rest)[1..] == rest;
  }

  /** Readable assignments, once rendered, read back as themselves. */
  lemma {:induction false} ParseRenderAll(ds: seq<Define>)
    requires forall i :: 0 <= i < |ds| ==> Readable(ds[i])
    ensures ParseAll(RenderAll(ds)) == Some(ds)
    decreases |ds|
  {
    if |ds| == 1 {
      ParseOneRender(ds[0], "");
      assert Render(ds[0]) + "" == RenderAll(ds);
      ParseAllLast(RenderAll(ds), ds[0]);
      assert [ds[0]] == ds;
    } else if |ds| > 1 {
      var rest := RenderAll(ds[1..]);
      ParseOneRender(ds[0], " " + rest);
      assert Render(ds[0]) + (" " + rest) == RenderAll(ds);
      ParseRenderAll(ds[1..]);
      ParseAllCons(RenderAll(ds), ds[0], rest);
      assert [ds[0]] + ds[1..] == ds;
    }
  }
}
