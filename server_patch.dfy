/** The source patcher (aircarto-server/fix_server_init.py) as a text
    transform: unless the marker is already present, a fixed ten-line
    initialisation block is inserted after every line that, stripped,
    starts with `app = Flask(__name__)`. Reading, backing up and writing
    the file are not modelled; the result is the text written, or `None`
    when nothing is written. */
module ServerPatch {
  import opened Common

  const Marker: string := "# Auto-initialisation InfluxDB"
  const AppLine: string := "app = Flask(__name__)"

  const Block: seq<string> := [
    "",
    "# Auto-initialisation InfluxDB pour Gunicorn",
    "# Initialiser InfluxDB au chargement du module",
    "if not influx_client:",
    "    init_result = init_influxdb()",
    "    if init_result:",
    "        logger.info(\"\U{1F504} InfluxDB initialisé automatiquement\")",
    "    else:",
    "        logger.warning(\"\U{26A0}\U{FE0F}  InfluxDB non disponible au démarrage\")",
    ""
  ]

  predicate IsAppLine(line: string)
  {
    StartsWith(Strip(line), AppLine)
  }

  /** The lines after the loop of `fix_server_init`. */
  function PatchLines(lines: seq<string>): seq<string>
  {
    if lines == [] then []
    else
      var last := lines[|lines| - 1];
      PatchLines(lines[..|lines| - 1]) + [last] + (if IsAppLine(last) then Block else [])
  }

  /** The number of matching lines. */
  function CountApp(lines: seq<string>): nat
  {
    if lines == [] then 0
    else CountApp(lines[..|lines| - 1]) + (if IsAppLine(lines[|lines| - 1]) then 1 else 0)
  }

  /** The text `fix_server_init` writes, or `None` when the marker is
      already there. */
  function Patch(content: string): Option<string>
  {
    if Contains(content, Marker) then None
    else Some(Join(PatchLines(Split(content, '\n')), '\n'))
  }

  /** Where original line `i` lands in the output. */
  function Position(lines: seq<string>, i: nat): nat
    requires i <= |lines|
  {
    i + |Block| * CountApp(lines[..i])
  }

  lemma {:induction false} PatchLinesLength(lines: seq<string>)
    ensures |PatchLines(lines)| == |lines| + |Block| * CountApp(lines)
  {
    if lines != [] {
      PatchLinesLength(lines[..|lines| - 1]);
    }
  }

  lemma {:induction false} LineAt(lines: seq<string>, i: nat)
    requires i < |lines|
    ensures Position(lines, i) < |PatchLines(lines)|
    ensures PatchLines(lines)[Position(lines, i)] == lines[i]
    ensures IsAppLine(lines[i]) ==>
      Position(lines, i) + 1 + |Block| <= |PatchLines(lines)| &&
      PatchLines(lines)[Position(lines, i) + 1..Position(lines, i) + 1 + |Block|] == Block
  {
    var front := lines[..|lines| - 1];
    var last := lines[|lines| - 1];
    var before := PatchLines(front);
    var out := PatchLines(lines);
    PatchLinesLength(front);
    assert out == before + [last] + (if IsAppLine(last) then Block else []);
    if i < |front| {
      LineAt(front, i);
      assert lines[..i] == front[..i];
      var p := Position(front, i);
      assert out[p] == before[p];
      if IsAppLine(lines[i]) {
        assert out[p + 1..p + 1 + |Block|] == before[p + 1..p + 1 + |Block|];
      }
    } else {
      assert lines[..i] == front;
    }
  }

  /** Every original line appears, in order, at its position, and right
      after each matching line comes the block; the output has ten more
      lines per matching line. */
  lemma PatchLinesLayout(lines: seq<string>)
    ensures |PatchLines(lines)| == |lines| + |Block| * CountApp(lines)
    ensures forall i :: 0 <= i < |lines| ==>
      Position(lines, i) < |PatchLines(lines)| && PatchLines(lines)[Position(lines, i)] == lines[i]
    ensures forall i :: 0 <= i < |lines| && IsAppLine(lines[i]) ==>
      Position(lines, i) + 1 + |Block| <= |PatchLines(lines)| &&
      PatchLines(lines)[Position(lines, i) + 1..Position(lines, i) + 1 + |Block|] == Block
  {
    PatchLinesLength(lines);
    forall i | 0 <= i < |lines|
      ensures Position(lines, i) < |PatchLines(lines)| && PatchLines(lines)[Position(lines, i)] == lines[i]
    {
      LineAt(lines, i);
    }
    forall i | 0 <= i < |lines| && IsAppLine(lines[i])
      ensures Position(lines, i) + 1 + |Block| <= |PatchLines(lines)|
      ensures PatchLines(lines)[Position(lines, i) + 1..Position(lines, i) + 1 + |Block|] == Block
    {
      LineAt(lines, i);
    }
  }

  lemma {:induction false} NoMatchUnchanged(lines: seq<string>)
    requires CountApp(lines) == 0
    ensures PatchLines(lines) == lines
  {
    if lines != [] {
      NoMatchUnchanged(lines[..|lines| - 1]);
      assert lines[..|lines| - 1] + [lines[|lines| - 1]] == lines;
    }
  }

  lemma {:induction false} SomeMatch(lines: seq<string>)
    requires CountApp(lines) > 0
    ensures exists i :: 0 <= i < |lines| && IsAppLine(lines[i])
  {
    var front := lines[..|lines| - 1];
    if !IsAppLine(lines[|lines| - 1]) {
      SomeMatch(front);
      var i :| 0 <= i < |front| && IsAppLine(front[i]);
      assert lines[i] == front[i];
    }
  }

  /** Without a matching line the written text is the input itself. */
  lemma PatchWithoutMatch(content: string)
    requires !Contains(content, Marker) && CountApp(Split(content, '\n')) == 0
    ensures Patch(content) == Some(content)
  {
    NoMatchUnchanged(Split(content, '\n'));
    JoinSplit(content, '\n');
  }

  lemma BlockHasMarker()
    ensures Contains(Block[1], Marker)
  {
    assert Block[1][..|Marker|] == Marker;
  }

  /** Once a block has been inserted the output holds the marker, so running
      the patcher on what it wrote writes nothing; without a match the text
      is unchanged. Either way a second run changes nothing more. */
  lemma PatchIdempotent(content: string)
    requires Patch(content).Some?
    ensures var out := Patch(content).value;
      Patch(out).None? || out == content
    ensures CountApp(Split(content, '\n')) > 0 ==> Patch(Patch(content).value).None?
  {
    var lines := Split(content, '\n');
    if CountApp(lines) > 0 {
      SomeMatch(lines);
      var i :| 0 <= i < |lines| && IsAppLine(lines[i]);
      PatchLinesLayout(lines);
      var p := Position(lines, i);
      var out := PatchLines(lines);
      assert out[p + 1..p + 1 + |Block|][1] == out[p + 2];
      BlockHasMarker();
      JoinContainsPart(out, '\n', p + 2, Marker);
    } else {
      PatchWithoutMatch(content);
    }
  }

  /** `fix_server_init()` on the file's content: the early return on the
      marker, then the loop that copies lines and inserts the block. */
  method FixServerInit(content: string) returns (written: Option<string>)
    ensures written == Patch(content)
  {
    if Contains(content, Marker) {
      return None;
    }
    var lines := Split(content, '\n');
    var newLines: seq<string> := [];
    for i := 0 to |lines|
      invariant newLines == PatchLines(lines[..i])
    {
      var line := lines[i];
      assert lines[..i + 1][..i] == lines[..i];
      newLines := newLines + [line];
      if IsAppLine(line) {
        newLines := newLines + Block;
      }
    }
    assert lines[..|lines|] == lines;
    written := Some(Join(newLines, '\n'));
  }
}
