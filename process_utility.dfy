/** ProcessUtility: the executable-extension helper and the walk that collects
    every descendant of a process from pgrep's answers. */
module ProcessUtility {
  import opened Wrappers
  import opened Text

  /** The default extension of AddExtension. */
  const DefaultExtension: string := ".exe"

  /** AddExtension(name, extension): the name, with the extension appended
      unless it already ends with it, ignoring case. */
  function AddExtension(name: string, extension: string): (r: string)
    ensures EndsWithIgnoreCase(r, extension)
    ensures EndsWithIgnoreCase(name, extension) ==> r == name
    ensures !EndsWithIgnoreCase(name, extension) ==> r == name + extension
  {
    if EndsWithIgnoreCase(name, extension) then name
    else
      assert (name + extension)[|name|..] == extension;
      name + extension
  }

  /** Adding the extension twice is adding it once. */
  lemma AddExtensionIdempotent(name: string, extension: string)
    ensures AddExtension(AddExtension(name, extension), extension) == AddExtension(name, extension)
  {
  }

  // ---------------------------------------------------------------------------
  // GetAllChildIdsUnix

  /** What `pgrep -P parent` returned: its exit code and standard output. */
  datatype PgrepResult = PgrepResult(exitCode: int, stdout: string)

  /** The ids among the lines, in order: the lines that int.TryParse accepts. */
  function ParsedIds(lines: seq<string>): seq<int> {
    if |lines| == 0 then []
    else
      match TryParseInt(lines[0])
      case Some(id) => [id] + ParsedIds(lines[1..])
      case None => ParsedIds(lines[1..])
  }

  lemma {:induction false} ParsedIdsAppend(a: seq<string>, b: seq<string>)
    ensures ParsedIds(a + b) == ParsedIds(a) + ParsedIds(b)
  {
    if |a| == 0 {
      assert a + b == b;
    } else {
      assert (a + b)[1..] == a[1..] + b;
      ParsedIdsAppend(a[1..], b);
    }
  }

  /** The children the walk reads for one answer: none unless the exit code is
      0 and the output is non-empty. */
  function ChildIds(answer: PgrepResult): seq<int> {
    if answer.exitCode == 0 && |answer.stdout| > 0 then ParsedIds(Lines(answer.stdout)) else []
  }

  /** pgrep's answers form no cycle: each child ranks below its parent. */
  ghost predicate Acyclic(pgrep: int -> PgrepResult, rank: int -> nat) {
    forall parent, k :: 0 <= k < |ChildIds(pgrep(parent))| ==> rank(ChildIds(pgrep(parent))[k]) < rank(parent)
  }

  /** Every process reachable from `parent` through pgrep's answers. */
  ghost function Descendants(pgrep: int -> PgrepResult, rank: int -> nat, parent: int): set<int>
    requires Acyclic(pgrep, rank)
    decreases rank(parent), 1, 0
  {
    DescendantsOfList(pgrep, rank, ChildIds(pgrep(parent)), rank(parent))
  }

  /** The ids of the list and everything reachable from them. */
  ghost function DescendantsOfList(pgrep: int -> PgrepResult, rank: int -> nat, ids: seq<int>, bound: nat): set<int>
    requires Acyclic(pgrep, rank)
    requires forall k :: 0 <= k < |ids| ==> rank(ids[k]) < bound
    decreases bound, 0, |ids|
  {
    if |ids| == 0 then {}
    else {ids[0]} + Descendants(pgrep, rank, ids[0]) + DescendantsOfList(pgrep, rank, ids[1..], bound)
  }

  lemma {:induction false} DescendantsOfListSnoc(pgrep: int -> PgrepResult, rank: int -> nat, ids: seq<int>, id: int, bound: nat)
    requires Acyclic(pgrep, rank)
    requires forall k :: 0 <= k < |ids| ==> rank(ids[k]) < bound
    requires rank(id) < bound
    ensures DescendantsOfList(pgrep, rank, ids + [id], bound)
            == DescendantsOfList(pgrep, rank, ids, bound) + {id} + Descendants(pgrep, rank, id)
    decreases |ids|
  {
    if |ids| == 0 {
      assert ids + [id] == [id];
      assert [id][1..] == [];
    } else {
      assert (ids + [id])[1..] == ids[1..] + [id];
      DescendantsOfListSnoc(pgrep, rank, ids[1..], id, bound);
    }
  }

  /** Each child of a process is among its descendants, and so is everything
      below that child. */
  lemma DescendantsClosed(pgrep: int -> PgrepResult, rank: int -> nat, parent: int, k: nat)
    requires Acyclic(pgrep, rank)
    requires k < |ChildIds(pgrep(parent))|
    ensures ChildIds(pgrep(parent))[k] in Descendants(pgrep, rank, parent)
    ensures Descendants(pgrep, rank, ChildIds(pgrep(parent))[k]) <= Descendants(pgrep, rank, parent)
  {
    ListMember(pgrep, rank, ChildIds(pgrep(parent)), rank(parent), k);
  }

  lemma {:induction false} ListMember(pgrep: int -> PgrepResult, rank: int -> nat, ids: seq<int>, bound: nat, k: nat)
    requires Acyclic(pgrep, rank)
    requires forall j :: 0 <= j < |ids| ==> rank(ids[j]) < bound
    requires k < |ids|
    ensures ids[k] in DescendantsOfList(pgrep, rank, ids, bound)
    ensures Descendants(pgrep, rank, ids[k]) <= DescendantsOfList(pgrep, rank, ids, bound)
    decreases k
  {
    if k > 0 {
      ListMember(pgrep, rank, ids[1..], bound, k - 1);
    }
  }

  /** A process with no children (pgrep failed or printed nothing) has no descendants. */
  lemma NoAnswerNoDescendants(pgrep: int -> PgrepResult, rank: int -> nat, parent: int)
    requires Acyclic(pgrep, rank)
    requires pgrep(parent).exitCode != 0 || |pgrep(parent).stdout| == 0
    ensures Descendants(pgrep, rank, parent) == {}
  {
  }

  /** One line read by the walk: if it parses, its id is a child of the parent
      and extends the ids read so far; otherwise those ids stay as they were. */
  lemma ReadStep(pgrep: int -> PgrepResult, rank: int -> nat, parent: int,
                 read: seq<string>, text: string, unread: seq<string>)
    requires Acyclic(pgrep, rank)
    requires pgrep(parent).exitCode == 0 && |pgrep(parent).stdout| > 0
    requires Lines(pgrep(parent).stdout) == read + [text] + unread
    ensures TryParseInt(text).Some? ==> ParsedIds(read + [text]) == ParsedIds(read) + [TryParseInt(text).value]
    ensures TryParseInt(text).Some? ==> rank(TryParseInt(text).value) < rank(parent)
    ensures TryParseInt(text).None? ==> ParsedIds(read + [text]) == ParsedIds(read)
    ensures forall k :: 0 <= k < |ParsedIds(read + [text])| ==> rank(ParsedIds(read + [text])[k]) < rank(parent)
  {
    ParsedIdsAppend(read, [text]);
    ParsedIdsAppend(read + [text], unread);
    var ids := ParsedIds(read + [text]);
    var children := ChildIds(pgrep(parent));
    assert children == ids + ParsedIds(unread);
    assert forall k :: 0 <= k < |ids| ==> ids[k] == children[k];
    if TryParseInt(text).Some? {
      assert ParsedIds([text]) == [TryParseInt(text).value];
      assert children[|ids| - 1] == TryParseInt(text).value;
    } else {
      assert ParsedIds([text]) == [];
    }
  }

  /** The walk's invariant survives one line: a parsed id adds itself and its
      descendants, an unparsed line adds nothing. */
  lemma WalkStep(pgrep: int -> PgrepResult, rank: int -> nat, parent: int,
                 start: set<int>, before: set<int>, after: set<int>, read: seq<string>, text: string)
    requires Acyclic(pgrep, rank)
    requires forall k :: 0 <= k < |ParsedIds(read)| ==> rank(ParsedIds(read)[k]) < rank(parent)
    requires forall k :: 0 <= k < |ParsedIds(read + [text])| ==> rank(ParsedIds(read + [text])[k]) < rank(parent)
    requires before == start + DescendantsOfList(pgrep, rank, ParsedIds(read), rank(parent))
    requires TryParseInt(text).Some? ==> ParsedIds(read + [text]) == ParsedIds(read) + [TryParseInt(text).value]
    requires TryParseInt(text).Some? ==> rank(TryParseInt(text).value) < rank(parent)
    requires TryParseInt(text).Some? ==>
               after == before + {TryParseInt(text).value} + Descendants(pgrep, rank, TryParseInt(text).value)
    requires TryParseInt(text).None? ==> ParsedIds(read + [text]) == ParsedIds(read) && after == before
    ensures after == start + DescendantsOfList(pgrep, rank, ParsedIds(read + [text]), rank(parent))
  {
    if TryParseInt(text).Some? {
      DescendantsOfListSnoc(pgrep, rank, ParsedIds(read), TryParseInt(text).value, rank(parent));
    }
  }

  /** A StringReader over a text: what it has not handed out yet. */
  class StringReader {
    var rest: string

    constructor (text: string)
      ensures rest == text
    {
      rest := text;
    }

    /** ReadLine: the next line without its line break, or null at the end. */
    method ReadLine() returns (line: Option<string>)
      modifies this
      ensures |old(rest)| == 0 ==> line.None? && rest == old(rest)
      ensures |old(rest)| > 0 ==> line.Some? && Lines(old(rest)) == [line.value] + Lines(rest) && |rest| < |old(rest)|
    {
      if |rest| == 0 {
        return None;
      }
      var i := LineEnd(rest);
      if i == |rest| {
        line := Some(rest);
        rest := [];
      } else if rest[i] == '\r' && i + 1 < |rest| && rest[i + 1] == '\n' {
        line := Some(rest[..i]);
        rest := rest[i + 2..];
      } else {
        line := Some(rest[..i]);
        rest := rest[i + 1..];
      }
    }
  }

  /** The caller's ISet<int>. */
  class IdSet {
    var items: set<int>

    constructor (items: set<int>)
      ensures this.items == items
    {
      this.items := items;
    }
  }

  /** GetAllChildIdsUnix(parentId, children): `pgrep` answers `pgrep -P id`
      for every id, and `rank` is a proof-only witness that its answers have
      no cycle. Every descendant is added; nothing is removed. */
  method GetAllChildIdsUnix(parentId: int, children: IdSet, pgrep: int -> PgrepResult, ghost rank: int -> nat)
    requires Acyclic(pgrep, rank)
    modifies children
    ensures children.items == old(children.items) + Descendants(pgrep, rank, parentId)
    decreases rank(parentId), 1
  {
    var answer := pgrep(parentId);
    if answer.exitCode == 0 && |answer.stdout| > 0 {
      ghost var all := Lines(answer.stdout);
      ghost var start := children.items;
      var reader := new StringReader(answer.stdout);
      ghost var read: seq<string> := [];
      while true
        invariant all == read + Lines(reader.rest)
        invariant forall k :: 0 <= k < |ParsedIds(read)| ==> rank(ParsedIds(read)[k]) < rank(parentId)
        invariant children.items == start + DescendantsOfList(pgrep, rank, ParsedIds(read), rank(parentId))
        decreases |reader.rest|
      {
        var text := reader.ReadLine();
        if text.None? {
          assert Lines(reader.rest) == [];
          assert read == all;
          return;
        }
        ReadStep(pgrep, rank, parentId, read, text.value, Lines(reader.rest));
        ghost var before := children.items;
        var id := TryParseInt(text.value);
        if id.Some? {
          children.items := children.items + {id.value};
          GetAllChildIdsUnix(id.value, children, pgrep, rank);
        }
        WalkStep(pgrep, rank, parentId, start, before, children.items, read, text.value);
        read := read + [text.value];
      }
    }
  }
}
