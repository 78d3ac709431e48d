/**
 The header list handed to cURL: the caller's header array, turned into one
 `"Name: Value"` line per header, in the array's order. The reading a server
 applies to such a line (split at the first colon) is defined alongside, so
 that the list can be shown to carry the header array without loss.
 */
module Headers {
  import opened Wrappers

  /** One entry of the caller's header array: name and value, as text. */
  type Header = (string, string)

  /** The separator between a header's name and its value. */
  const Separator: string := ": "

  /** The line built for one header by string interpolation. */
  function Line(name: string, value: string): string
  {
    name + Separator + value
  }

  /** The list built by the `foreach` loop: one line per header, appended in
      the order of the header array. */
  function Lines(headers: seq<Header>): (lines: seq<string>)
    ensures |lines| == |headers|
    ensures forall i :: 0 <= i < |headers| ==> lines[i] == Line(headers[i].0, headers[i].1)
  {
    if headers == [] then []
    else
      var last := headers[|headers| - 1];
      Lines(headers[..|headers| - 1]) + [Line(last.0, last.1)]
  }

  /** The position of the first colon in `s`, if there is one. */
  function ColonIndex(s: string): (r: Option<nat>)
    ensures r.Some? ==> r.value < |s| && s[r.value] == ':' && ':' !in s[..r.value]
    ensures r.None? ==> ':' !in s
  {
    if s == [] then None
    else if s[0] == ':' then Some(0)
    else
      match ColonIndex(s[1..])
      case None => None
      case Some(j) =>
        assert s[..j + 1] == [s[0]] + s[1..][..j];
        Some(j + 1)
  }

  /** Reads a header line back: the name is everything before the first colon,
      which must be followed by a space; the value is the rest. */
  function ParseLine(line: string): (h: Option<Header>)
    ensures h.Some? ==> ':' !in h.value.0 && line == Line(h.value.0, h.value.1)
  {
    match ColonIndex(line)
    case None => None
    case Some(i) =>
      if i + 1 < |line| && line[i + 1] == ' ' then
        assert line == line[..i] + Separator + line[i + 2..];
        Some((line[..i], line[i + 2..]))
      else None
  }

  /** Reads a whole header list back, failing if any line does not parse. */
  function ParseLines(lines: seq<string>): (hs: Option<seq<Header>>)
    ensures hs.Some? ==> |hs.value| == |lines|
  {
    if lines == [] then Some([])
    else
      match ParseLines(lines[..|lines| - 1])
      case None => None
      case Some(init) =>
        match ParseLine(lines[|lines| - 1])
        case None => None
        case Some(h) => Some(init + [h])
  }

  /** A header whose name holds no colon (true of every valid HTTP field
      name) is read back from its line exactly. */
  lemma HeaderLineRoundTrip(name: string, value: string)
    requires ':' !in name
    ensures ParseLine(Line(name, value)) == Some((name, value))
  {
    var line := Line(name, value);
    assert line[|name|] == ':';
    assert line[..|name|] == name;
    var r := ColonIndex(line);
    assert r.Some?;
    assert forall p :: 0 <= p < |name| ==> line[p] == name[p];
    assert r.value <= |name| by {
      assert ':' in line[..|name| + 1];
    }
    assert r.value == |name|;
    assert line[|name| + 2..] == value;
  }

  /** The serialised list carries the header array without loss: reading it
      back gives the same headers, in the same order. */
  lemma {:induction false} HeaderListRoundTrip(headers: seq<Header>)
    requires forall i :: 0 <= i < |headers| ==> ':' !in headers[i].0
    ensures ParseLines(Lines(headers)) == Some(headers)
  {
    if headers != [] {
      var n := |headers| - 1;
      var lines := Lines(headers);
      assert lines[..n] == Lines(headers[..n]);
      HeaderListRoundTrip(headers[..n]);
      HeaderLineRoundTrip(headers[n].0, headers[n].1);
      assert headers[..n] + [headers[n]] == headers;
    }
  }
}
