/**
 Replacing a file through a temporary file.  A crash may fall between any two steps;
 `WriteTrace` lists every disk such a crash can leave behind.
 */
module AtomicFiles {
  datatype Content<T> = Absent | Torn | Whole(value: T)

  datatype Disk<T> = Disk(target: Content<T>, tmp: Content<T>)

  /** How far a write gets before the first error. */
  datatype Outcome = MarshalFailed | MkdirFailed | TempFailed | RenameFailed | Done

  /** Opening the temporary file truncates it, so it is torn until the write ends. */
  function WriteTrace<T>(d: Disk<T>, data: T, o: Outcome): (trace: seq<Disk<T>>)
    ensures |trace| > 0 && trace[0] == d
    ensures forall k | 0 <= k < |trace| - 1 :: trace[k].target == d.target
    ensures Last(trace).target == if o.Done? then Whole(data) else d.target
  {
    match o
    case MarshalFailed => [d]
    case MkdirFailed => [d]
    case TempFailed => [d, d.(tmp := Torn)]
    case RenameFailed => [d, d.(tmp := Torn), d.(tmp := Whole(data))]
    case Done => [d, d.(tmp := Torn), d.(tmp := Whole(data)), Disk(Whole(data), Absent)]
  }

  function Last<T>(s: seq<T>): T
    requires s != []
  {
    s[|s| - 1]
  }

  class File<T> {
    var disk: Disk<T>

    constructor (d: Disk<T>)
      ensures disk == d
    {
      disk := d;
    }

    method WriteFileAtomic(data: T, o: Outcome) returns (ok: bool, ghost trace: seq<Disk<T>>)
      modifies this
      ensures ok == o.Done?
      ensures trace == WriteTrace(old(disk), data, o)
      ensures disk == Last(trace)
    {
      trace := [disk];
      if o.MarshalFailed? || o.MkdirFailed? {
        return false, trace;
      }
      disk := disk.(tmp := Torn);
      trace := trace + [disk];
      if o.TempFailed? {
        return false, trace;
      }
      disk := disk.(tmp := Whole(data));
      trace := trace + [disk];
      if o.RenameFailed? {
        return false, trace;
      }
      disk := Disk(disk.tmp, Absent);
      trace := trace + [disk];
      ok := true;
    }
  }
}
