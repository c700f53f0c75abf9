/** The image-load event of EFI boot services and the nested device path it carries. */
module DevicePaths {
  import opened Common

  /** What a log entry says about its event. */
  datatype EventDetails = EventDetails(
    text: Option<string>,
    unicodeName: Option<string>,
    unicodeNameLength: Option<nat>,
    variableData: Option<string>,
    variableDataLength: Option<nat>,
    variableName: Option<string>,
    devicePaths: Option<seq<string>>,
    data: Option<string>)

  const EMPTY := EventDetails(None, None, None, None, None, None, None, None)

  /** How one node is rendered, from its type, its subtype and its data. */
  type PathPrinter = (byte, byte, Bytes) -> string

  /** A generic device path node (section 10.3.1 of UEFI 2.10): header of four bytes, then data. */
  datatype Node = Node(kind: byte, subkind: byte, data: Bytes)

  predicate WellFormedNode(n: Node) {
    4 + |n.data| < 0x1_0000
  }

  predicate WellFormedNodes(nodes: seq<Node>) {
    forall i :: 0 <= i < |nodes| ==> WellFormedNode(nodes[i])
  }

  function NodeBytes(n: Node): Bytes {
    [n.kind, n.subkind] + LE(2, 4 + |n.data|) + n.data
  }

  function PathBytes(nodes: seq<Node>): Bytes {
    if nodes == [] then [] else NodeBytes(nodes[0]) + PathBytes(nodes[1..])
  }

  function Rendered(show: PathPrinter, nodes: seq<Node>): (r: seq<string>)
    ensures |r| == |nodes|
    ensures forall i :: 0 <= i < |r| ==> r[i] == show(nodes[i].kind, nodes[i].subkind, nodes[i].data)
  {
    seq(|nodes|, i requires 0 <= i < |nodes| => show(nodes[i].kind, nodes[i].subkind, nodes[i].data))
  }

  /** `details` with `paths` appended to the device paths it already lists. */
  function WithPaths(details: EventDetails, paths: seq<string>): EventDetails {
    details.(devicePaths := Some((if details.devicePaths.Some? then details.devicePaths.value else []) + paths))
  }

  /** Reads nodes off `s` one by one, appending a rendered path for each to `result`. */
  function NestedPaths(show: PathPrinter, s: Bytes, result: EventDetails): Result<EventDetails>
    decreases |s|
  {
    if |s| < 4 then Err
    else
      var length := FromLE(s[2..4]);
      if |s| < length || length < 4 then Err
      else
        var result' := WithPaths(result, [show(s[0], s[1], s[4..length])]);
        if s[length..] == [] then Ok(result') else NestedPaths(show, s[length..], result')
  }

  /** The event data: three words that are skipped, the path length, then the path. The last four
      bytes of the declared length, where the end node belongs, are never looked at. */
  function ParseImageLoad(show: PathPrinter, data: Bytes): Result<EventDetails> {
    if |data| < 32 then Err
    else
      var length := FromLE(data[24..32]);
      if length == 0 then Ok(EMPTY)
      else if length < 8 || |data| < 32 + (length - 4) then Err
      else NestedPaths(show, data[32..32 + (length - 4)], EMPTY)
  }

  // ---- Framing ----

  lemma NodeFrame(n: Node, rest: Bytes)
    requires WellFormedNode(n)
    ensures var s := NodeBytes(n) + rest;
      |NodeBytes(n)| == 4 + |n.data| && FromLE(s[2..4]) == 4 + |n.data|
      && s[0] == n.kind && s[1] == n.subkind && s[4..4 + |n.data|] == n.data && s[4 + |n.data|..] == rest
  {
    var s := NodeBytes(n) + rest;
    FieldWidths();
    FromLEofLE(2, 4 + |n.data|);
    assert s[2..4] == LE(2, 4 + |n.data|);
  }

  lemma NodeUnframe(s: Bytes)
    requires |s| >= 4 && 4 <= FromLE(s[2..4]) <= |s|
    ensures var n := Node(s[0], s[1], s[4..FromLE(s[2..4])]);
      WellFormedNode(n) && NodeBytes(n) == s[..FromLE(s[2..4])]
  {
    FieldWidths();
    LEofFromLE(s[2..4]);
    var length := FromLE(s[2..4]);
    assert s[..length] == [s[0], s[1]] + s[2..4] + s[4..length];
  }

  lemma NestedStep(show: PathPrinter, n: Node, rest: Bytes, result: EventDetails)
    requires WellFormedNode(n)
    ensures var result' := WithPaths(result, [show(n.kind, n.subkind, n.data)]);
      NestedPaths(show, NodeBytes(n) + rest, result)
      == if rest == [] then Ok(result') else NestedPaths(show, rest, result')
  {
    NodeFrame(n, rest);
  }

  lemma WithPathsAppends(details: EventDetails, a: seq<string>, b: seq<string>)
    ensures WithPaths(WithPaths(details, a), b) == WithPaths(details, a + b)
  {
    assert WithPaths(details, a).devicePaths.value + b == WithPaths(details, a + b).devicePaths.value;
  }

  /** Any non-empty list of well-formed nodes parses to one path per node, in order. */
  lemma {:induction false} PathPrintThenParse(show: PathPrinter, nodes: seq<Node>, result: EventDetails)
    requires nodes != [] && WellFormedNodes(nodes)
    ensures NestedPaths(show, PathBytes(nodes), result) == Ok(WithPaths(result, Rendered(show, nodes)))
    decreases nodes
  {
    var first, rest := nodes[0], nodes[1..];
    var shown := [show(first.kind, first.subkind, first.data)];
    NestedStep(show, first, PathBytes(rest), result);
    if rest == [] {
      assert Rendered(show, nodes) == shown;
    } else {
      assert Rendered(show, nodes) == shown + Rendered(show, rest);
      NodeFrame(rest[0], PathBytes(rest[1..]));
      PathPrintThenParse(show, rest, WithPaths(result, shown));
      WithPathsAppends(result, shown, Rendered(show, rest));
    }
  }

  /** Whatever parses is a concatenation of nodes framed by their own declared lengths. */
  lemma {:induction false} PathParseThenPrint(show: PathPrinter, s: Bytes, result: EventDetails)
    returns (nodes: seq<Node>)
    requires NestedPaths(show, s, result).Ok?
    ensures nodes != [] && WellFormedNodes(nodes) && PathBytes(nodes) == s
    ensures NestedPaths(show, s, result) == Ok(WithPaths(result, Rendered(show, nodes)))
    decreases |s|
  {
    var length := FromLE(s[2..4]);
    var first := Node(s[0], s[1], s[4..length]);
    NodeUnframe(s);
    assert s == s[..length] + s[length..];
    if s[length..] == [] {
      nodes := [first];
    } else {
      var rest := PathParseThenPrint(show, s[length..], WithPaths(result, [show(s[0], s[1], s[4..length])]));
      nodes := [first] + rest;
      assert nodes[1..] == rest;
    }
    PathPrintThenParse(show, nodes, result);
  }

  /** The image-load event succeeds exactly when it declares no path, or when the bytes up to the
      last four of the declared length are a non-empty run of framed nodes. */
  lemma ImageLoadFraming(show: PathPrinter, data: Bytes)
    ensures ParseImageLoad(show, data).Ok? <==>
      |data| >= 32 && var length := FromLE(data[24..32]);
      length == 0 ||
      (8 <= length && 28 + length <= |data|
       && exists nodes: seq<Node> ::
            nodes != [] && WellFormedNodes(nodes) && PathBytes(nodes) == data[32..28 + length])
    ensures forall nodes: seq<Node> ::
      |data| >= 32 && 8 <= FromLE(data[24..32]) <= |data| - 28 && nodes != [] && WellFormedNodes(nodes)
      && PathBytes(nodes) == data[32..28 + FromLE(data[24..32])]
      ==> ParseImageLoad(show, data) == Ok(EMPTY.(devicePaths := Some(Rendered(show, nodes))))
  {
    if |data| >= 32 {
      var length := FromLE(data[24..32]);
      if 8 <= length <= |data| - 28 {
        var path := data[32..28 + length];
        forall nodes: seq<Node> | nodes != [] && WellFormedNodes(nodes) && PathBytes(nodes) == path
          ensures ParseImageLoad(show, data) == Ok(EMPTY.(devicePaths := Some(Rendered(show, nodes))))
        {
          PathPrintThenParse(show, nodes, EMPTY);
          assert [] + Rendered(show, nodes) == Rendered(show, nodes);
        }
        if NestedPaths(show, path, EMPTY).Ok? {
          var nodes := PathParseThenPrint(show, path, EMPTY);
        }
      }
    }
  }
}
