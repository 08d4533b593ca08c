/**
 * `Transfer::Copy`: the local-copy transfer plugin.  Its instance methods do
 * nothing; `Copy.cp` copies a file in blocks, advancing a progress bar.
 *
 * The file system is a parameter: the source's bytes, whether the
 * destination is a directory, and which paths exist.
 */
module TransferCopy {
  import opened Wrappers
  import opened Strings

  newtype byte = b: int | 0 <= b < 256

  /** The names `Copy` registers under. */
  const Names: seq<string> := ["cp", "copy"]

  /** `protocol` */
  const Protocol: string := "local copy"

  /** The caller's options; an absent one takes its default. */
  datatype CopyOptions = CopyOptions(bs: Option<int>, title: Option<string>, permissions: Option<int>, overwrite: bool)

  datatype Settings = Settings(bs: int, title: string, permissions: int, overwrite: bool)

  const DefaultBlockSize: int := 4096
  const DefaultTitle: string := "Copying File"
  const DefaultPermissions: int := 0x1B4  // octal 0664

  /** `{ :bs => 4096, :title => "Copying File", :permissions => 0664 }.merge!(opts)` */
  function Merge(o: CopyOptions): Settings {
    Settings(o.bs.GetOr(DefaultBlockSize), o.title.GetOr(DefaultTitle),
             o.permissions.GetOr(DefaultPermissions), o.overwrite)
  }

  /** With no options the defaults apply; a given option always wins over its default. */
  lemma MergeDefaults(o: CopyOptions)
    ensures Merge(CopyOptions(None, None, None, false)) == Settings(4096, "Copying File", 436, false)
    ensures o.bs.Some? ==> Merge(o).bs == o.bs.value
    ensures o.title.Some? ==> Merge(o).title == o.title.value
    ensures o.permissions.Some? ==> Merge(o).permissions == o.permissions.value
    ensures Merge(o).overwrite == o.overwrite
  {
  }

  datatype CopyError =
    | FileExists          // Errno::EEXIST
    | StepNotPositive     // ArgumentError from `Range#step` with a block size of zero or less
    | UndefinedPath       // NameError: `Path` is not defined

  /** What the copy does to the outside world, in order. */
  datatype Effect =
    | OpenSrc
    | OpenDest(permissions: int)
    | NewBar(title: string, total: int)
    | Read(n: int)
    | Write(n: int)
    | BarInc(n: int)
    | CloseSrc
    | CloseDest
    | BarFinish

  /** `File.join(dir, name)` */
  function FileJoin(dir: string, name: string): string {
    if |dir| > 0 && dir[|dir| - 1] == '/' then dir + name else dir + "/" + name
  }

  /** The destination as written: a directory destination names the undefined constant `Path`. */
  function DestinationAsWritten(dest: string, src: string, destIsDir: bool): Result<string, CopyError> {
    if destIsDir then Failure(UndefinedPath) else Success(dest)
  }

  /** Any directory destination raises `NameError` before anything else happens. */
  lemma DirectoryDestinationRaises(dest: string, src: string)
    ensures DestinationAsWritten(dest, src, true) == Failure(UndefinedPath)
  {
  }

  /** The destination as intended: the source's base name inside a directory destination. */
  function Destination(dest: string, src: string, destIsDir: bool): (r: string)
    ensures !destIsDir ==> r == dest
  {
    if destIsDir then FileJoin(dest, Basename(src)) else dest
  }

  /** Inside a directory destination the target lies directly in it and carries the source's base name. */
  lemma DestinationInDirectory(dest: string, src: string)
    ensures var t := Destination(dest, src, true);
      dest <= t && t[|t| - |Basename(src)|..] == Basename(src)
      && (|dest| > 0 && dest[|dest| - 1] == '/' ==> t == dest + Basename(src))
      && (|dest| == 0 || dest[|dest| - 1] != '/' ==> t[|dest|] == '/')
  {
  }

  /** The bytes read at each position 0, bs, 2·bs, … up to and including `size`, from `pos` on. */
  function Chunks(pos: nat, size: nat, bs: int): (r: seq<int>)
    requires bs > 0
    ensures pos > size ==> r == []
    decreases if pos <= size then size + 1 - pos else 0
  {
    if pos > size then []
    else [if pos + bs > size then size - pos else bs] + Chunks(pos + bs, size, bs)
  }

  function Sum(xs: seq<int>): int
    decreases |xs|
  {
    if xs == [] then 0 else xs[0] + Sum(xs[1..])
  }

  /**
   * From any position up to `size` the chunks lie in [0, bs], add up to the
   * bytes left, and number n with (n-1)·bs <= left < n·bs; the last one is
   * empty exactly when the bytes left are a multiple (n-1)·bs of the block.
   */
  lemma {:induction false} ChunksShape(pos: nat, size: nat, bs: int)
    requires bs > 0 && pos <= size
    ensures var c := Chunks(pos, size, bs);
      && |c| >= 1
      && (forall i :: 0 <= i < |c| ==> 0 <= c[i] <= bs)
      && Sum(c) == size - pos
      && (|c| - 1) * bs <= size - pos < |c| * bs
      && (c[|c| - 1] == 0 <==> size - pos == (|c| - 1) * bs)
    decreases size + 1 - pos
  {
    var c := Chunks(pos, size, bs);
    if pos + bs <= size {
      ChunksShape(pos + bs, size, bs);
      var rest := Chunks(pos + bs, size, bs);
      assert c == [bs] + rest;
      assert c[1..] == rest;
      assert (|c| - 1) * bs == |rest| * bs == (|rest| - 1) * bs + bs;
      assert |c| * bs == |rest| * bs + bs;
    } else {
      assert c == [size - pos];
    }
  }

  /** The effects of one pass of the loop per chunk: read it, write it, advance the bar by a whole block. */
  function LoopEffects(chunks: seq<int>, bs: int): (r: seq<Effect>)
    ensures |r| == 3 * |chunks|
    decreases |chunks|
  {
    if chunks == [] then [] else [Read(chunks[0]), Write(chunks[0]), BarInc(bs)] + LoopEffects(chunks[1..], bs)
  }

  lemma LoopEffectsSnoc(chunks: seq<int>, x: int, bs: int)
    ensures LoopEffects(chunks + [x], bs) == LoopEffects(chunks, bs) + [Read(x), Write(x), BarInc(bs)]
    decreases |chunks|
  {
    if chunks == [] {
      assert [x][1..] == [];
    } else {
      assert (chunks + [x])[1..] == chunks[1..] + [x];
    }
  }

  /** How far the bar moves: `bs` per pass. */
  function BarProgress(effects: seq<Effect>): int
    decreases |effects|
  {
    if effects == [] then 0
    else (if effects[0].BarInc? then effects[0].n else 0) + BarProgress(effects[1..])
  }

  lemma {:induction false} BarProgressLoop(chunks: seq<int>, bs: int)
    ensures BarProgress(LoopEffects(chunks, bs)) == |chunks| * bs
    decreases |chunks|
  {
    if chunks != [] {
      var e := LoopEffects(chunks, bs);
      BarProgressLoop(chunks[1..], bs);
      assert e[0] == Read(chunks[0]) && e[1..][0] == Write(chunks[0]) && e[1..][1..][0] == BarInc(bs);
      assert e[1..][1..][1..] == LoopEffects(chunks[1..], bs);
      assert BarProgress(e[1..][1..]) == bs + BarProgress(e[1..][1..][1..]);
      assert BarProgress(e) == BarProgress(e[1..]) == BarProgress(e[1..][1..]);
      assert |chunks| * bs == (|chunks| - 1) * bs + bs;
    }
  }

  /** The bar always ends beyond the file size, because it advances by whole blocks. */
  lemma BarOvershoots(size: nat, bs: int)
    requires bs > 0
    ensures BarProgress(LoopEffects(Chunks(0, size, bs), bs)) > size
  {
    ChunksShape(0, size, bs);
    BarProgressLoop(Chunks(0, size, bs), bs);
  }

  /** What is opened before the loop, and what the `ensure` clause closes on every path past the opens. */
  function Opening(s: Settings, size: int): seq<Effect> {
    [OpenSrc, OpenDest(s.permissions), NewBar(s.title, size)]
  }

  const Closing: seq<Effect> := [CloseSrc, CloseDest, BarFinish]

  /**
   * `Copy.cp(src, dest, opts)` with the destination as intended: raises
   * EEXIST before opening anything when the target exists and overwrite is
   * not set; otherwise opens both files, copies the source block by block
   * and closes everything, also when the block size makes the loop raise.
   */
  method Cp(src: seq<byte>, srcPath: string, dest: string, destIsDir: bool, present: string -> bool, opts: CopyOptions)
    returns (r: Outcome<CopyError>, written: seq<byte>, chunks: seq<int>, effects: seq<Effect>)
    ensures var s := Merge(opts);
      var target := Destination(dest, srcPath, destIsDir);
      && (present(target) && !s.overwrite ==> r == Fail(FileExists) && effects == [] && written == [])
      && (!(present(target) && !s.overwrite) && s.bs <= 0 ==>
            r == Fail(StepNotPositive) && effects == Opening(s, |src|) + Closing && written == [])
      && (!(present(target) && !s.overwrite) && s.bs > 0 ==>
            && r == Pass && written == src && chunks == Chunks(0, |src|, s.bs)
            && effects == Opening(s, |src|) + LoopEffects(chunks, s.bs) + Closing)
  {
    var s := Merge(opts);
    var target := Destination(dest, srcPath, destIsDir);
    written, chunks, effects := [], [], [];
    if present(target) && !s.overwrite {
      return Fail(FileExists), written, chunks, effects;
    }
    effects := [OpenSrc, OpenDest(s.permissions)];
    var size := |src|;
    var blockSize := s.bs;
    effects := effects + [NewBar(s.title, size)];
    if blockSize <= 0 {
      effects := effects + Closing;
      return Fail(StepNotPositive), written, chunks, effects;
    }
    var loopEffects;
    written, chunks, loopEffects := CopyBlocks(src, blockSize);
    effects := effects + loopEffects + Closing;
    r := Pass;
  }

  /** The loop of `Copy.cp`: at each position read `min(bs, size - position)` bytes, write them, and advance the bar by `bs`. */
  method CopyBlocks(src: seq<byte>, blockSize: int) returns (written: seq<byte>, chunks: seq<int>, effects: seq<Effect>)
    requires blockSize > 0
    ensures written == src
    ensures chunks == Chunks(0, |src|, blockSize)
    ensures effects == LoopEffects(chunks, blockSize)
  {
    var size := |src|;
    written, chunks, effects := [], [], [];
    var position := 0;
    while position <= size
      invariant 0 <= position
      invariant position <= size ==> written == src[..position]
      invariant position > size ==> written == src
      invariant Chunks(0, size, blockSize) == chunks + Chunks(position, size, blockSize)
      invariant effects == LoopEffects(chunks, blockSize)
      decreases size + 1 - position
    {
      var readBs := if position + blockSize > size then size - position else blockSize;
      var inData := src[position..position + readBs];
      written := written + inData;
      LoopEffectsSnoc(chunks, readBs, blockSize);
      effects := effects + [Read(readBs), Write(readBs), BarInc(blockSize)];
      assert Chunks(position, size, blockSize) == [readBs] + Chunks(position + blockSize, size, blockSize);
      chunks := chunks + [readBs];
      position := position + blockSize;
      if position <= size {
        assert written == src[..position];
      } else {
        assert written == src[..size];
      }
    }
    assert chunks + [] == chunks;
  }

  /** Every run that opens the files closes both of them and finishes the bar last. */
  lemma CpCloses(r: Outcome<CopyError>, effects: seq<Effect>, s: Settings, size: int, chunks: seq<int>)
    requires effects == Opening(s, size) + LoopEffects(chunks, s.bs) + Closing
    ensures effects[0] == OpenSrc && effects[1].OpenDest?
    ensures effects[|effects| - 3..] == [CloseSrc, CloseDest, BarFinish]
  {
  }

  /** A copy that succeeds reads and writes each chunk once, in order, and moves exactly the source's bytes. */
  lemma CpMovesEveryByte(size: nat, bs: int)
    requires bs > 0
    ensures Sum(Chunks(0, size, bs)) == size
    ensures forall i :: 0 <= i < |Chunks(0, size, bs)| ==> 0 <= Chunks(0, size, bs)[i] <= bs
  {
    ChunksShape(0, size, bs);
  }

  /** The plugin's instance: `open`, `transfer` and `close` do nothing. */
  class Copy {
    constructor ()
    {
    }

    method Open()
    {
    }

    method Transfer(src: string, dest: string)
    {
    }

    method Close()
    {
    }

    function ProtocolName(): (p: string)
      ensures p == Protocol
    {
      "local copy"
    }
  }
}
