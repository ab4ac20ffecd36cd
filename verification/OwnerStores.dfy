/** The record of users that own peers: memory changes first, then the file, which may fail. */
module OwnerStores {
  import opened AtomicFiles

  datatype OwnerRecord = OwnerRecord(name: string, refreshToken: string)

  type Table = map<string, OwnerRecord>

  datatype Owners = Owners(m: Table, disk: Disk<Table>)

  function StoredTable(c: Content<Table>): Table {
    if c.Whole? then c.value else map[]
  }

  /** Without a new token the record goes on with its old one. */
  function WithRecord(m: Table, sub: string, name: string, token: string): Table {
    var before := if sub in m then m[sub] else OwnerRecord("", "");
    m[sub := OwnerRecord(name, if token != "" then token else before.refreshToken)]
  }

  function Written(o: Owners, m: Table, save: Outcome): Owners {
    Owners(m, Last(WriteTrace(o.disk, m, save)))
  }

  function SetRecord(o: Owners, sub: string, name: string, token: string, save: Outcome): Owners {
    Written(o, WithRecord(o.m, sub, name, token), save)
  }

  function DeleteRecord(o: Owners, sub: string, save: Outcome): Owners {
    Written(o, o.m - {sub}, save)
  }

  class OwnerStore {
    const file: File<Table>
    var m: Table

    ghost function Snapshot(): Owners
      reads this, file
    {
      Owners(m, file.disk)
    }

    constructor (file: File<Table>)
      requires !file.disk.target.Torn?
      ensures this.file == file && m == StoredTable(file.disk.target)
    {
      this.file := file;
      m := if file.disk.target.Whole? then file.disk.target.value else map[];
    }

    method Set(sub: string, name: string, refreshToken: string, save: Outcome) returns (ok: bool)
      modifies this, file
      ensures ok == save.Done?
      ensures Snapshot() == SetRecord(old(Snapshot()), sub, name, refreshToken, save)
    {
      var rec := if sub in m then m[sub] else OwnerRecord("", "");
      rec := rec.(name := name);
      if refreshToken != "" {
        rec := rec.(refreshToken := refreshToken);
      }
      m := m[sub := rec];
      var saved, _ := file.WriteFileAtomic(m, save);
      ok := saved;
    }

    method Delete(sub: string, save: Outcome) returns (ok: bool)
      modifies this, file
      ensures ok == save.Done?
      ensures Snapshot() == DeleteRecord(old(Snapshot()), sub, save)
    {
      m := m - {sub};
      var saved, _ := file.WriteFileAtomic(m, save);
      ok := saved;
    }
  }
}
