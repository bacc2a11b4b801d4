/** From an instruction pointer to an address in the file it was loaded from
    (src/symbols/symbolizer.cpp:39-83). Files are an oracle: the readable program headers of a
    64-bit little-endian ELF file, or nothing. */
module AddressResolution {
  import opened Results
  import opened Words

  datatype Segment = Segment(load: bool, offset: u64, vaddr: u64, filesz: u64)

  datatype Mapping = Mapping(start: u64, end: u64, fileOffset: u64, executable: bool, path: string)

  datatype Reference = Reference(location: string, address: u64)

  type Files = string -> Option<seq<Segment>>

  // ----- inside one file

  predicate Holds(s: Segment, offset: u64) {
    s.load && s.offset <= offset && offset - s.offset < s.filesz
  }

  function ElfAddressOf(segments: seq<Segment>, offset: u64): Option<u64> {
    if segments == [] then None
    else if Holds(segments[0], offset) then Some(Sub64(Add64(segments[0].vaddr, offset), segments[0].offset))
    else ElfAddressOf(segments[1..], offset)
  }

  method ElfAddress(segments: seq<Segment>, offset: u64) returns (address: Option<u64>)
    ensures address == ElfAddressOf(segments, offset)
  {
    for index := 0 to |segments|
      invariant ElfAddressOf(segments, offset) == ElfAddressOf(segments[index..], offset)
    {
      var s := segments[index];
      assert segments[index..][0] == s && segments[index..][1..] == segments[index + 1..];
      if s.load && offset >= s.offset && offset - s.offset < s.filesz {
        return Some(Sub64(Add64(s.vaddr, offset), s.offset));
      }
    }
    address := None;
  }

  // ----- among the mappings

  const DELETED: string := " (deleted)"

  function StripDeletedSuffix(path: string): string {
    if |DELETED| <= |path| && path[|path| - |DELETED|..] == DELETED then path[..|path| - |DELETED|] else path
  }

  predicate Covers(m: Mapping, ip: u64) {
    m.executable && m.start <= ip < m.end && "/" <= m.path
  }

  function FirstCovering(mappings: seq<Mapping>, ip: u64): Option<Mapping> {
    if mappings == [] then None
    else if Covers(mappings[0], ip) then Some(mappings[0])
    else FirstCovering(mappings[1..], ip)
  }

  function Resolve(ip: u64, mappings: seq<Mapping>, files: Files): Option<Reference> {
    var m := FirstCovering(mappings, ip);
    if m.None? then None
    else
      var path := StripDeletedSuffix(m.value.path);
      var segments := files(path);
      if segments.None? then None
      else
        var address := ElfAddressOf(segments.value, Add64(Sub64(ip, m.value.start), m.value.fileOffset));
        if address.None? then None else Some(Reference(path, address.value))
  }

  method ResolveAddress(ip: u64, mappings: seq<Mapping>, files: Files) returns (r: Option<Reference>)
    ensures r == Resolve(ip, mappings, files)
  {
    var k := 0;
    while k < |mappings| && !(mappings[k].executable && ip >= mappings[k].start && ip < mappings[k].end
                              && "/" <= mappings[k].path)
      invariant 0 <= k <= |mappings|
      invariant FirstCovering(mappings, ip) == FirstCovering(mappings[k..], ip)
    {
      assert mappings[k..][1..] == mappings[k + 1..];
      k := k + 1;
    }
    if k == |mappings| {
      return None;
    }
    var m := mappings[k];
    assert FirstCovering(mappings, ip) == Some(m);
    var path := StripDeletedSuffix(m.path);
    var segments := files(path);
    if segments.None? {
      return None;
    }
    var address := ElfAddress(segments.value, Add64(Sub64(ip, m.start), m.fileOffset));
    r := if address.None? then None else Some(Reference(path, address.value));
  }

  // ----- loading a file, and undoing it

  /** No byte of the file belongs to two loaded segments. */
  predicate DisjointFileRanges(segments: seq<Segment>) {
    forall i, j :: 0 <= i < j < |segments| && segments[i].load && segments[j].load ==>
      segments[i].offset + segments[i].filesz <= segments[j].offset
      || segments[j].offset + segments[j].filesz <= segments[i].offset
  }

  predicate DisjointMappings(mappings: seq<Mapping>) {
    forall i, j :: 0 <= i < j < |mappings| ==>
      mappings[i].end <= mappings[j].start || mappings[j].end <= mappings[i].start
  }

  /** The mapping shows the segment at this bias: addresses and file offsets run alike. */
  predicate Shows(m: Mapping, s: Segment, bias: u64) {
    s.load && Sub64(m.start, m.fileOffset) == Sub64(Add64(bias, s.vaddr), s.offset)
  }

  function WholePages(x: u64, page: nat): u64
    requires page > 0
  {
    RemainderFits(x, page);
    x - x % page
  }

  lemma RemainderFits(x: u64, page: nat)
    requires page > 0
    ensures 0 <= x % page <= x
  {
  }

  lemma {:induction false} OnlySegment(segments: seq<Segment>, k: nat, offset: u64)
    requires k < |segments| && Holds(segments[k], offset) && DisjointFileRanges(segments)
    ensures ElfAddressOf(segments, offset) == Some(Sub64(Add64(segments[k].vaddr, offset), segments[k].offset))
  {
    if k > 0 {
      assert !Holds(segments[0], offset);
      OnlySegment(segments[1..], k - 1, offset);
    }
  }

  lemma {:induction false} OnlyMapping(mappings: seq<Mapping>, k: nat, ip: u64)
    requires k < |mappings| && Covers(mappings[k], ip) && DisjointMappings(mappings)
    ensures FirstCovering(mappings, ip) == Some(mappings[k])
  {
    if k > 0 {
      assert !Covers(mappings[0], ip);
      OnlyMapping(mappings[1..], k - 1, ip);
    }
  }

  /** A loader maps whole pages, with the segment's address and file offset alike within the page (System V
      gABI, chapter 5, "Program Loading"); that mapping, and every piece into which it is split
      later, `skip` bytes behind its start, shows the segment. */
  lemma PiecesShow(m: Mapping, s: Segment, bias: u64, page: nat, skip: nat)
    requires page > 0 && s.load && s.vaddr % page == s.offset % page
    requires WholePages(s.offset, page) + skip < TWO64
    requires m.start == Add64(Add64(bias, WholePages(s.vaddr, page)), skip)
    requires m.fileOffset == WholePages(s.offset, page) + skip
    ensures Shows(m, s, bias)
  {
    RemainderFits(s.vaddr, page);
    RemainderFits(s.offset, page);
    PieceDistance(bias, s.vaddr, s.offset, s.vaddr % page, skip);
  }

  /** With r the part of the address within its page. */
  lemma PieceDistance(bias: u64, vaddr: u64, offset: u64, r: nat, skip: u64)
    requires r <= vaddr && r <= offset && offset - r + skip < TWO64
    ensures Sub64(Add64(Add64(bias, vaddr - r), skip), offset - r + skip) == Sub64(Add64(bias, vaddr), offset)
  {
  }

  lemma OffsetOfByte(bias: u64, vaddr: u64, offset: u64, start: u64, fileOffset: u64, n: u64, ip: u64)
    requires Sub64(start, fileOffset) == Sub64(Add64(bias, vaddr), offset)
    requires offset + n < TWO64 && ip == Add64(bias, Add64(vaddr, n))
    ensures Add64(Sub64(ip, start), fileOffset) == offset + n
    ensures Sub64(Add64(vaddr, offset + n), offset) == Sub64(ip, bias)
  {
  }

  ghost predicate MarkedDeleted(path: string) {
    exists name :: path == name + DELETED
  }

  /** How the kernel names a mapped file: as it is called, and marked once it has been deleted. */
  predicate Names(path: string, file: string) {
    path == file + DELETED || path == file
  }

  /** The name under which a mapped file is opened is the file's, deleted or not, unless a file that
      was not deleted is itself called as if it had been. */
  lemma StrippedExactly(path: string, file: string)
    requires Names(path, file)
    ensures StripDeletedSuffix(path) == file <==> path != file || !MarkedDeleted(file)
  {
    if |DELETED| <= |path| && path[|path| - |DELETED|..] == DELETED {
      assert path == path[..|path| - |DELETED|] + DELETED;
    }
    forall name | path == name + DELETED
      ensures StripDeletedSuffix(path) == name
    {
      assert (name + DELETED)[|name|..] == DELETED && (name + DELETED)[..|name|] == name;
    }
  }

  /** Every instruction pointer in the file-backed part of an executable segment resolves to its
      file, deleted or not, and its address before loading, ip minus the bias modulo 2^64. */
  lemma ResolutionUndoesLoading(mappings: seq<Mapping>, i: nat, files: Files, file: string, segments: seq<Segment>,
                                k: nat, bias: u64, n: u64, ip: u64)
    requires i < |mappings| && DisjointMappings(mappings) && Covers(mappings[i], ip)
    requires Names(mappings[i].path, file) && (mappings[i].path != file || !MarkedDeleted(file))
    requires files(file) == Some(segments)
    requires k < |segments| && DisjointFileRanges(segments) && Shows(mappings[i], segments[k], bias)
    requires n < segments[k].filesz && segments[k].offset + segments[k].filesz <= TWO64
    requires ip == Add64(bias, Add64(segments[k].vaddr, n))
    ensures Resolve(ip, mappings, files) == Some(Reference(file, Sub64(ip, bias)))
  {
    var m, s := mappings[i], segments[k];
    StrippedExactly(m.path, file);
    hide StripDeletedSuffix, MarkedDeleted, Names;
    OffsetOfByte(bias, s.vaddr, s.offset, m.start, m.fileOffset, n, ip);
    OnlyMapping(mappings, i, ip);
    OnlySegment(segments, k, s.offset + n);
  }

  // ----- what resolves at all

  predicate Catches(m: Mapping, ip: u64) {
    m.executable && m.start <= ip < m.end && m.path != "" && m.path[0] == '/'
  }

  /** The mapping that decides: the first executable one of a file that the pointer lies in. */
  predicate Lands(mappings: seq<Mapping>, ip: u64, i: nat) {
    i < |mappings| && Catches(mappings[i], ip) && forall j :: 0 <= j < i ==> !Catches(mappings[j], ip)
  }

  /** The file can be read and one of its loaded segments has the byte at this offset. */
  predicate Backed(segments: Option<seq<Segment>>, offset: u64) {
    && segments.Some?
    && exists k ::
      && 0 <= k < |segments.value|
      && segments.value[k].load
      && segments.value[k].offset <= offset < segments.value[k].offset + segments.value[k].filesz
  }

  lemma {:induction false} LandingIs(mappings: seq<Mapping>, ip: u64, i: nat)
    requires Lands(mappings, ip, i)
    ensures FirstCovering(mappings, ip) == Some(mappings[i])
  {
    if i > 0 {
      assert !Catches(mappings[0], ip);
      LandingIs(mappings[1..], ip, i - 1);
    }
  }

  lemma {:induction false} LandingFound(mappings: seq<Mapping>, ip: u64) returns (i: nat)
    requires FirstCovering(mappings, ip).Some?
    ensures Lands(mappings, ip, i)
  {
    if Covers(mappings[0], ip) {
      i := 0;
    } else {
      var k := LandingFound(mappings[1..], ip);
      i := k + 1;
    }
  }

  lemma {:induction false} FoundIfBacked(segments: seq<Segment>, offset: u64)
    ensures ElfAddressOf(segments, offset).Some? <==> Backed(Some(segments), offset)
  {
    if segments != [] {
      FoundIfBacked(segments[1..], offset);
      if Backed(Some(segments[1..]), offset) {
        var k :| 0 <= k < |segments| - 1 && Holds(segments[1..][k], offset);
        assert segments[k + 1] == segments[1..][k];
      }
      if Backed(Some(segments), offset) && !Holds(segments[0], offset) {
        var k :| 0 <= k < |segments| && Holds(segments[k], offset);
        assert segments[1..][k - 1] == segments[k];
      }
    }
  }

  predicate Resolvable(ip: u64, mappings: seq<Mapping>, files: Files, i: nat) {
    && Lands(mappings, ip, i)
    && Backed(files(StripDeletedSuffix(mappings[i].path)), Add64(ip - mappings[i].start, mappings[i].fileOffset))
  }

  lemma ResolvesAt(ip: u64, mappings: seq<Mapping>, files: Files, i: nat)
    requires Lands(mappings, ip, i)
    ensures Resolve(ip, mappings, files).Some? <==> Resolvable(ip, mappings, files, i)
  {
    hide FirstCovering, Backed, ElfAddressOf, StripDeletedSuffix;
    LandingIs(mappings, ip, i);
    var segments := files(StripDeletedSuffix(mappings[i].path));
    if segments.Some? {
      FoundIfBacked(segments.value, Add64(ip - mappings[i].start, mappings[i].fileOffset));
    } else {
      assert !Resolvable(ip, mappings, files, i) by {
        Unreadable(Add64(ip - mappings[i].start, mappings[i].fileOffset));
      }
    }
  }

  lemma Unreadable(offset: u64)
    ensures !Backed(None, offset)
  {
  }

  /** A pointer resolves exactly if it lies in an executable mapping of a file, and the first such
      mapping's file can be read and has its byte in a loaded segment. So it resolves to nothing
      outside all such mappings, in a file that cannot be read, and between the segments. */
  lemma ResolvesExactly(ip: u64, mappings: seq<Mapping>, files: Files)
    ensures Resolve(ip, mappings, files).Some? <==> exists i: nat :: Resolvable(ip, mappings, files, i)
  {
    hide Resolve, Backed, FirstCovering;
    if Resolve(ip, mappings, files).Some? {
      ResolvesSomewhere(ip, mappings, files);
      var i := LandingFound(mappings, ip);
      ResolvesAt(ip, mappings, files, i);
    } else {
      forall i: nat | Lands(mappings, ip, i)
        ensures !Resolvable(ip, mappings, files, i)
      {
        ResolvesAt(ip, mappings, files, i);
      }
    }
  }

  lemma ResolvesSomewhere(ip: u64, mappings: seq<Mapping>, files: Files)
    requires Resolve(ip, mappings, files).Some?
    ensures FirstCovering(mappings, ip).Some?
  {
  }
}
