/**
 The code of the read path in its own form: records with fields, loops over requests, blocks written
 in place. Each method is tied to the functions on sequences used by the cluster model.
 */
module ReadPath {
  import opened Bytes
  import opened Requests

  // ----- what a batch of copies does to a block

  predicate Fits(list: seq<SliceData>, size: nat)
  {
    forall i :: 0 <= i < |list| ==> list[i].pos + list[i].len <= size
  }

  predicate Sized(list: seq<SliceData>, vals: seq<seq<Byte>>)
  {
    |vals| == |list| && forall i :: 0 <= i < |list| ==> |vals[i]| == list[i].len
  }

  /** `mem` after copying `vals[0]`, `vals[1]`, ... to the entries' offsets, in this order. */
  function Written(mem: seq<Byte>, list: seq<SliceData>, vals: seq<seq<Byte>>): (r: seq<Byte>)
    requires Fits(list, |mem|) && Sized(list, vals)
    ensures |r| == |mem|
  {
    if list == [] then mem
    else
      var n := |list| - 1;
      Splice(Written(mem, list[..n], vals[..n]), list[n].pos, vals[n])
  }

  lemma WrittenSnoc(mem: seq<Byte>, list: seq<SliceData>, vals: seq<seq<Byte>>, d: SliceData, v: seq<Byte>)
    requires Fits(list, |mem|) && Sized(list, vals) && d.pos + d.len <= |mem| && |v| == d.len
    ensures Fits(list + [d], |mem|) && Sized(list + [d], vals + [v])
    ensures Written(mem, list + [d], vals + [v]) == Splice(Written(mem, list, vals), d.pos, v)
  {
    assert (list + [d])[..|list|] == list;
    assert (vals + [v])[..|vals|] == vals;
  }

  /** One more entry of a batch. */
  lemma WrittenNext(mem: seq<Byte>, list: seq<SliceData>, vals: seq<seq<Byte>>, i: nat)
    requires Fits(list, |mem|) && Sized(list, vals) && i < |list|
    ensures Written(mem, list[..i + 1], vals[..i + 1]) ==
            Splice(Written(mem, list[..i], vals[..i]), list[i].pos, vals[i])
  {
    Front(list, i);
    Front(vals, i);
    WrittenSnoc(mem, list[..i], vals[..i], list[i], vals[i]);
  }

  lemma Front<T>(xs: seq<T>, i: nat)
    requires i < |xs|
    ensures xs[..i + 1] == xs[..i] + [xs[i]]
  {
  }

  /** Entries laid out one after another. */
  predicate Apart(list: seq<SliceData>)
  {
    forall i, j :: 0 <= i < j < |list| ==> list[i].pos + list[i].len <= list[j].pos
  }

  predicate Touched(list: seq<SliceData>, x: nat)
  {
    exists i :: 0 <= i < |list| && list[i].pos <= x < list[i].pos + list[i].len
  }

  /** Each slot holds its own value, and every byte outside the slots is as before. */
  lemma {:induction false} WrittenSlots(mem: seq<Byte>, list: seq<SliceData>, vals: seq<seq<Byte>>)
    requires Fits(list, |mem|) && Sized(list, vals) && Apart(list)
    ensures forall i :: 0 <= i < |list| ==> Cut(Written(mem, list, vals), list[i].pos, list[i].len) == vals[i]
    ensures forall x: nat :: x < |mem| && !Touched(list, x) ==> Written(mem, list, vals)[x] == mem[x]
  {
    if list != [] {
      var n := |list| - 1;
      var before := Written(mem, list[..n], vals[..n]);
      WrittenSlots(mem, list[..n], vals[..n]);
      SpliceHit(before, list[n].pos, vals[n]);
      forall i | 0 <= i < n
        ensures Cut(Written(mem, list, vals), list[i].pos, list[i].len) == vals[i]
      {
        assert list[..n][i] == list[i];
        SpliceMiss(before, list[n].pos, vals[n], list[i].pos, list[i].len);
      }
      forall x: nat | x < |mem| && !Touched(list, x)
        ensures Written(mem, list, vals)[x] == mem[x]
      {
        assert !Touched(list[..n], x);
        assert !(list[n].pos <= x < list[n].pos + list[n].len);
      }
    }
  }

  // ----- slices in memory

  /** The slice file holds the whole range. */
  predicate InReach(readers: map<nat, seq<Byte>>, d: SliceData)
  {
    d.partition in readers && d.start + d.len <= |readers[d.partition]|
  }

  function Stored(readers: map<nat, seq<Byte>>, d: SliceData): seq<Byte>
    requires InReach(readers, d)
  {
    Cut(readers[d.partition], d.start, d.len)
  }

  /** `vals` are what a worker with these readers may copy: the file's bytes wherever it has them. */
  predicate Reads(readers: map<nat, seq<Byte>>, list: seq<SliceData>, vals: seq<seq<Byte>>)
  {
    && Sized(list, vals)
    && forall i :: 0 <= i < |list| && InReach(readers, list[i]) ==> vals[i] == Stored(readers, list[i])
  }

  predicate AllHeld(readers: map<nat, seq<Byte>>, list: seq<SliceData>)
  {
    forall i :: 0 <= i < |list| ==> InReach(readers, list[i])
  }

  lemma ReadsUnique(readers: map<nat, seq<Byte>>, list: seq<SliceData>, v1: seq<seq<Byte>>, v2: seq<seq<Byte>>)
    requires AllHeld(readers, list) && Reads(readers, list, v1) && Reads(readers, list, v2)
    ensures v1 == v2
  {
  }

  /** One more entry of a task: what was read for it, and where it was copied. */
  lemma NextRead(readers: map<nat, seq<Byte>>, mem: seq<Byte>, list: seq<SliceData>, vals: seq<seq<Byte>>, i: nat,
                 v: seq<Byte>)
    requires i < |list| && Fits(list, |mem|) && Reads(readers, list[..i], vals) && |v| == list[i].len
    requires InReach(readers, list[i]) ==> v == Stored(readers, list[i])
    ensures Reads(readers, list[..i + 1], vals + [v])
    ensures Written(mem, list[..i + 1], vals + [v]) == Splice(Written(mem, list[..i], vals), list[i].pos, v)
  {
    Front(list, i);
    WrittenSnoc(mem, list[..i], vals, list[i], v);
  }

  // ----- the shared record of one Get

  class RequestResult {
    const reqNum: nat
    const size: nat
    const data: array<Byte>
    var finishNum: nat
    var faild: bool
    var finish: bool

    constructor (reqNum: nat, size: nat, data: array<Byte>)
      ensures this.reqNum == reqNum && this.size == size && this.data == data
      ensures finishNum == 0 && !faild && !finish
    {
      this.reqNum := reqNum;
      this.size := size;
      this.data := data;
      finishNum, faild, finish := 0, false, false;
    }

    /** The section under the lock at the end of every task. */
    method Count(num: nat)
      modifies this`finishNum, this`finish
      ensures finishNum == old(finishNum) + num
      ensures finish == (old(finish) || finishNum >= reqNum)
    {
      finishNum := finishNum + num;
      if finishNum >= reqNum {
        finish := true;
      }
    }

    method Fail()
      modifies this`faild
      ensures faild
    {
      faild := true;
    }
  }

  datatype RequestTask = RequestTask(num: nat, name: Name, result: RequestResult, list: seq<SliceData>)

  /**
   A task as the code builds it: counted, inside its block, each length within the read buffer, its fields
   narrowed.
   */
  predicate TaskOk(t: RequestTask)
  {
    && t.num == |t.list|
    && Fits(t.list, t.result.data.Length)
    && forall i :: 0 <= i < |t.list| ==> t.list[i].len <= READ_BUFFER && Narrowed(t.list[i])
  }

  predicate Narrowed(d: SliceData)
  {
    Narrow(d.partition) == d.partition && Narrow(d.start) == d.start && Narrow(d.len) == d.len
  }

  // ----- ModelHander

  /** The readers of a shard: each of its slices, with the contents of its file. */
  function Loaded(files: map<nat, seq<Byte>>, slices: seq<nat>): (m: map<nat, seq<Byte>>)
    requires forall i :: 0 <= i < |slices| ==> slices[i] in files
  {
    map s | s in slices :: files[s]
  }

  class ModelHander {
    const name: Name
    const files: map<nat, seq<Byte>>    // what Load finds on disk for each slice of this node
    const slices: seq<nat>
    var readers: map<nat, seq<Byte>>
    var queue: seq<RequestTask>

    constructor (name: Name, slices: seq<nat>, files: map<nat, seq<Byte>>)
      requires forall i :: 0 <= i < |slices| ==> slices[i] in files
      ensures this.name == name && this.slices == slices && this.files == files
      ensures readers == map[] && queue == []
    {
      this.name := name;
      this.slices := slices;
      this.files := files;
      readers, queue := map[], [];
    }

    ghost predicate SlicesOnDisk()
    {
      forall i :: 0 <= i < |slices| ==> slices[i] in files
    }

    /** `init`: loads each slice of the shard, then starts the workers. */
    method Init()
      requires SlicesOnDisk() && readers == map[]
      modifies this`readers
      ensures readers == Loaded(files, slices)
    {
      var i := 0;
      while i < |slices|
        invariant 0 <= i <= |slices|
        invariant readers == Loaded(files, slices[..i])
      {
        readers := readers[slices[i] := files[slices[i]]];
        assert slices[..i + 1] == slices[..i] + [slices[i]];
        i := i + 1;
      }
      assert slices[..i] == slices;
    }

    /** `LoadAll` after `init`, for any count (one caller passes more than there are): nothing changes. */
    method LoadAll(num: nat)
      requires SlicesOnDisk() && readers == Loaded(files, slices)
      modifies this`readers
      ensures readers == Loaded(files, slices)
    {
      var i := 0;
      while i < num && i < |slices|
        invariant readers == Loaded(files, slices)
      {
        readers := readers[slices[i] := files[slices[i]]];
        i := i + 1;
      }
    }

    method UnLoadAll()
      modifies this`readers
      ensures readers == map[]
    {
      readers := map[];
    }

    method Push(task: RequestTask)
      modifies this`queue
      ensures queue == old(queue) + [task]
    {
      queue := queue + [task];
    }

    /** A worker takes the task at the front. */
    method Pop() returns (task: RequestTask)
      requires queue != []
      modifies this`queue
      ensures [task] + queue == old(queue)
    {
      task := queue[0];
      queue := queue[1..];
    }

    /** One slice read into a buffer. It fails without the bytes, and then the buffer is not to be trusted. */
    method Read(d: SliceData, buf: array<Byte>) returns (ok: bool)
      requires d.len <= buf.Length
      modifies buf
      ensures ok == InReach(readers, d)
      ensures ok ==> buf[..d.len] == Stored(readers, d)
    {
      ok := d.partition in readers && d.start + d.len <= |readers[d.partition]|;
      if ok {
        var file := readers[d.partition];
        forall i | 0 <= i < d.len {
          buf[i] := file[d.start + i];
        }
        assert buf[..d.len] == Stored(readers, d);
      }
    }

    /**
     The worker's loop over a task: read into the buffer, copy to the entry's offset, whatever Read
     returned; then count. The block ends as a batch of copies of what could be read.
     */
    method ProcessTask(t: RequestTask) returns (ghost vals: seq<seq<Byte>>)
      requires TaskOk(t)
      modifies t.result`finishNum, t.result`finish, t.result.data
      ensures Reads(readers, t.list, vals)
      ensures t.result.data[..] == Written(old(t.result.data[..]), t.list, vals)
      ensures t.result.finishNum == old(t.result.finishNum) + t.num
      ensures t.result.finish == (old(t.result.finish) || t.result.finishNum >= t.result.reqNum)
    {
      var data := t.result.data;
      var buf := new Byte[READ_BUFFER](i => 0);
      ghost var mem := data[..];
      vals := [];
      var i := 0;
      while i < t.num
        invariant 0 <= i <= t.num
        invariant Reads(readers, t.list[..i], vals)
        invariant data[..] == Written(mem, t.list[..i], vals)
        invariant fresh(buf)
        modifies buf, data
      {
        var d := t.list[i];
        var ok := Read(d, buf);
        CopyInto(data, d.pos, buf, d.len);
        NextRead(readers, mem, t.list, vals, i, buf[..d.len]);
        vals := vals + [buf[..d.len]];
        i := i + 1;
      }
      assert t.list[..t.num] == t.list;
      t.result.Count(t.num);
    }
  }

  /** memcpy(data + pos, buf, len). */
  method CopyInto(data: array<Byte>, pos: nat, buf: array<Byte>, len: nat)
    requires pos + len <= data.Length && len <= buf.Length && data != buf
    modifies data
    ensures data[..] == Splice(old(data[..]), pos, buf[..len])
  {
    forall i | 0 <= i < len {
      data[pos + i] := buf[i];
    }
  }

  /** memcpy from a received answer. */
  method CopyBytes(data: array<Byte>, pos: nat, bytes: seq<Byte>)
    requires pos + |bytes| <= data.Length
    modifies data
    ensures data[..] == Splice(old(data[..]), pos, bytes)
  {
    forall i | 0 <= i < |bytes| {
      data[pos + i] := bytes[i];
    }
  }
}
