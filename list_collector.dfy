/** `NodeListCollector`: enqueues the lines of a text file, one node id per line. */
module ListCollector {
  import opened Wrappers
  import opened Values
  import opened Text
  import opened Config
  import opened WorkQueue

  const NodeListKey := "node-list-file"

  predicate IsLineBreak(c: char) { c == '\n' || c == '\r' }

  /** A line holds no line break. */
  predicate IsLine(line: string) { forall j :: 0 <= j < |line| ==> !IsLineBreak(line[j]) }

  /** The index of the first line break, or the length when there is none. */
  function LineEnd(s: string): (i: nat)
    ensures i <= |s|
    ensures forall k :: 0 <= k < i ==> !IsLineBreak(s[k])
    ensures i < |s| ==> IsLineBreak(s[i])
  {
    if s == [] || IsLineBreak(s[0]) then 0 else 1 + LineEnd(s[1..])
  }

  /** `Files.readAllLines`: a line ends at `\n`, `\r` or `\r\n`; text after the last
      break is a last line, and a break at the very end adds no empty line. */
  function ReadAllLines(s: string): (lines: seq<string>)
    ensures forall k :: 0 <= k < |lines| ==> IsLine(lines[k])
    decreases |s|
  {
    if s == [] then []
    else
      var i := LineEnd(s);
      if i == |s| then [s]
      else
        var next := if s[i] == '\r' && i + 1 < |s| && s[i + 1] == '\n' then i + 2 else i + 1;
        [s[..i]] + ReadAllLines(s[next..])
  }

  /** The text of a file whose every line is followed by `\n`. */
  function Terminated(lines: seq<string>): string {
    if lines == [] then [] else lines[0] + "\n" + Terminated(lines[1..])
  }

  lemma LineEndOf(line: string, rest: string)
    requires IsLine(line)
    ensures LineEnd(line + "\n" + rest) == |line|
    decreases |line|
  {
    if line != [] {
      assert (line + "\n" + rest)[1..] == line[1..] + "\n" + rest;
      LineEndOf(line[1..], rest);
    }
  }

  /** Reading back lines written one per `\n` gives the same lines, empty ones
      included, in the same order. */
  lemma {:induction false} ReadTerminated(lines: seq<string>)
    requires forall k :: 0 <= k < |lines| ==> IsLine(lines[k])
    ensures ReadAllLines(Terminated(lines)) == lines
    decreases |lines|
  {
    if lines != [] {
      var s := Terminated(lines);
      var rest := Terminated(lines[1..]);
      assert s == lines[0] + "\n" + rest;
      LineEndOf(lines[0], rest);
      assert s[..|lines[0]|] == lines[0];
      assert s[|lines[0]| + 1..] == rest;
      assert ReadAllLines(s) == [lines[0]] + ReadAllLines(rest);
      ReadTerminated(lines[1..]);
    }
  }

  /** The lines a collection enqueues: those of the named file when the argument is a
      non-blank string and the file can be read; none otherwise. */
  function ListedIds(files: map<string, string>, arg: Value): (r: Result<seq<Id>, Exception>)
    ensures arg != Null && !arg.Str? ==> r == Err(ClassCast)
    ensures arg == Null || (arg.Str? && IsBlank(arg.s)) ==> r == Ok([])
    ensures arg.Str? && !IsBlank(arg.s) ==> r == Ok(if arg.s in files then ReadAllLines(files[arg.s]) else [])
  {
    match arg
    case Null => Ok([])
    case Str(path) => Ok(if IsBlank(path) || path !in files then [] else ReadAllLines(files[path]))
    case _ => Err(ClassCast)
  }

  class NodeListCollector {
    const queue: Queue
    /** The readable files and their decoded text; reading any other path fails with
        an IOException, which is logged. */
    const files: map<string, string>

    constructor (queue: Queue, files: map<string, string>)
      ensures this.queue == queue && this.files == files
    {
      this.queue := queue;
      this.files := files;
    }

    /** `collectNodes`: puts every line of the `node-list-file`, in file order. */
    method CollectNodes(config: CollectorConfig) returns (r: Result<(), Exception>, ghost ids: seq<Id>)
      requires queue.Valid()
      modifies queue
      ensures queue.Valid()
      ensures ListedIds(files, config.Arg(NodeListKey)).Err? ==> r == Err(ClassCast) && queue.items == old(queue.items)
      ensures ListedIds(files, config.Arg(NodeListKey)).Ok? ==>
        r == Ok(()) && ids == ListedIds(files, config.Arg(NodeListKey)).value
        && queue.items == Fill(old(queue.items), queue.capacity, ids)
    {
      var listed := ListedIds(files, config.Arg(NodeListKey));
      if listed.Err? {
        return Err(listed.error), [];
      }
      var lines := listed.value;
      ids := lines;
      var i := 0;
      while i < |lines|
        invariant i <= |lines| && queue.Valid()
        invariant queue.items == Fill(old(queue.items), queue.capacity, lines[..i])
      {
        var _ := queue.Put(lines[i]);
        FillThen(old(queue.items), queue.capacity, lines[..i], [lines[i]]);
        assert lines[..i + 1] == lines[..i] + [lines[i]];
        i := i + 1;
      }
      assert lines[..i] == lines;
      r := Ok(());
    }
  }

  /** When the lines fit in the queue, one id is enqueued per line of the file. */
  lemma OneIdPerLine(items: seq<Id>, cap: nat, files: map<string, string>, path: string)
    requires |items| <= cap && !IsBlank(path) && path in files
    requires |items| + |ReadAllLines(files[path])| <= cap
    ensures Fill(items, cap, ListedIds(files, Str(path)).value) == items + ReadAllLines(files[path])
    ensures |Fill(items, cap, ListedIds(files, Str(path)).value)| == |items| + |ReadAllLines(files[path])|
  {
  }
}
