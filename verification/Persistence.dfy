/**
 Replacing a file through a verified temporary file and an atomic rename.

 Nothing is assumed of a write: it may fail, and even a reported success may have
 stored other bytes. Reads return what is stored, in pieces of any size, or fail.
 A rename moves the stored bytes or changes nothing.
 */
module Persistence {
  import opened Basics

  type Path = string

  const CHUNK: nat := 8192

  datatype Verdict = Same | Different | Unreadable

  function Holds(files: map<Path, seq<byte>>, path: Path): Option<seq<byte>> {
    if path in files then Some(files[path]) else None
  }

  // The environment picks for each operation whether it fails, for a write what it
  // leaves behind, and for a read how much it returns. `faults` counts the
  // operations that failed or stored other bytes of their own accord.
  class FileSystem {
    var files: map<Path, seq<byte>>
    var faults: nat

    constructor ()
      ensures files == map[] && faults == 0
    {
      files, faults := map[], 0;
    }

    method Fault() returns (fault: bool)
      modifies this`faults
      ensures faults == old(faults) + if fault then 1 else 0
    {
      fault := *;
      if fault {
        faults := faults + 1;
      }
    }

    method CreateNew(path: Path) returns (ok: bool)
      modifies this
      ensures faults >= old(faults) && (!ok ==> faults > old(faults) || path in old(files))
      ensures ok ==> path !in old(files) && files == old(files)[path := []]
      ensures !ok ==> files == old(files)
    {
      var fault := Fault();
      ok := !fault && path !in files;
      if ok {
        files := files[path := []];
      }
    }

    method WriteAndSync(path: Path, data: seq<byte>) returns (ok: bool)
      modifies this
      ensures path in files && files - {path} == old(files) - {path}
      ensures faults >= old(faults) && (!ok || files[path] != data ==> faults > old(faults))
    {
      var fault := Fault();
      ok := *;
      var stored: seq<byte> := *;
      if !fault {
        ok, stored := true, data;
      }
      files := files[path := stored];
    }

    method ReadAt(path: Path, offset: nat, limit: nat) returns (chunk: Option<seq<byte>>)
      requires limit > 0
      modifies this`faults
      ensures faults >= old(faults)
      ensures chunk.None? ==> faults > old(faults) || path !in files || offset > |files[path]|
      ensures chunk.Some? ==> path in files && offset <= |files[path]|
      ensures chunk.Some? ==> |chunk.value| <= limit && offset + |chunk.value| <= |files[path]|
                              && chunk.value == files[path][offset..offset + |chunk.value|]
      ensures chunk.Some? && chunk.value == [] ==> offset == |files[path]|
    {
      var fault := Fault();
      var wanted: int := *;
      if fault || path !in files || offset > |files[path]| {
        return None;
      }
      var left := |files[path]| - offset;
      var most := if left < limit then left else limit;
      var count := if wanted < 1 || wanted > most then most else wanted;
      return Some(files[path][offset..offset + count]);
    }

    method Rename(source: Path, target: Path) returns (ok: bool)
      requires source != target
      modifies this
      ensures faults >= old(faults) && (!ok ==> faults > old(faults) || source !in old(files))
      ensures ok ==> source in old(files) && files == (old(files) - {source})[target := old(files)[source]]
      ensures !ok ==> files == old(files)
    {
      var fault := Fault();
      ok := !fault && source in files;
      if ok {
        files := (files - {source})[target := files[source]];
      }
    }

    method Remove(path: Path)
      modifies this
      ensures faults >= old(faults) && (path in files ==> faults > old(faults))
      ensures files - {path} == old(files) - {path}
    {
      var fault := Fault();
      if !fault {
        files := files - {path};
      }
    }

    /** Compares a file with `data` chunk by chunk. Unless a read fails, the
        verdict is right in both directions. */
    method VerifyBytes(path: Path, data: seq<byte>) returns (verdict: Verdict)
      modifies this`faults
      ensures faults >= old(faults) && (verdict.Unreadable? ==> faults > old(faults) || path !in files)
      ensures verdict.Same? ==> Holds(files, path) == Some(data)
      ensures verdict.Different? ==> path in files && files[path] != data
    {
      var offset := 0;
      while true
        invariant offset <= |data| && faults >= old(faults) && (path in files ==> offset <= |files[path]|)
        invariant path in files ==> files[path][..offset] == data[..offset]
        decreases |data| - offset
      {
        var chunk := ReadAt(path, offset, CHUNK);
        if chunk.None? {
          return Unreadable;
        }
        ghost var stored := files[path];
        assert stored[..offset] == data[..offset];
        if chunk.value == [] {
          assert stored == stored[..offset] && data == data[..|data|];
          return if offset == |data| then Same else Different;
        }
        var end := offset + |chunk.value|;
        if end > |data| || data[offset..end] != chunk.value {
          return Different;
        }
        assert stored[..end] == stored[..offset] + chunk.value;
        assert data[..end] == data[..offset] + chunk.value;
        offset := end;
      }
    }

    /** Reads a file of at most `limit` bytes into a buffer one byte longer; a
        longer file is refused. */
    method ReadSecretFile(path: Path, limit: nat) returns (data: Option<seq<byte>>)
      modifies this`faults
      ensures faults >= old(faults)
      ensures data.None? ==> faults > old(faults) || path !in files || |files[path]| > limit
      ensures data.Some? ==> Holds(files, path) == data && |data.value| <= limit
    {
      var buffer: seq<byte> := [];
      while |buffer| < limit + 1
        invariant |buffer| <= limit + 1 && faults >= old(faults) && (path in files ==> |buffer| <= |files[path]|)
        invariant path in files ==> files[path][..|buffer|] == buffer
        decreases limit + 1 - |buffer|
      {
        var chunk := ReadAt(path, |buffer|, limit + 1 - |buffer|);
        if chunk.None? {
          return None;
        }
        ghost var stored := files[path];
        if chunk.value == [] {
          assert stored == stored[..|buffer|];
          return Some(buffer);
        }
        assert stored[..|buffer| + |chunk.value|] == stored[..|buffer|] + chunk.value;
        buffer := buffer + chunk.value;
      }
      return None;
    }

    /** A success leaves exactly `data` at `path` and changes nothing else. A failure
        leaves there what was there before, or `data` itself, no third content, and
        touches no other file but the temporary one; it happens only if an operation
        failed or stored other bytes, or the temporary name was taken. */
    method AtomicWrite(path: Path, tmp: Path, data: seq<byte>) returns (ok: bool)
      requires tmp != path
      modifies this
      ensures faults >= old(faults) && (!ok ==> faults > old(faults) || tmp in old(files))
      ensures ok ==> files == old(files)[path := data]
      ensures Holds(files, path) == Some(data) || Holds(files, path) == Holds(old(files), path)
      ensures forall q :: q != path && q != tmp ==> Holds(files, q) == Holds(old(files), q)
    {
      ok := WriteThrough(path, tmp, data);
      if !ok {
        ghost var before := files;
        Remove(tmp);
        assert forall q :: q != tmp ==> Holds(files, q) == Holds(files - {tmp}, q) == Holds(before - {tmp}, q);
      }
    }

    method WriteThrough(path: Path, tmp: Path, data: seq<byte>) returns (ok: bool)
      requires tmp != path
      modifies this
      ensures faults >= old(faults) && (!ok ==> faults > old(faults) || tmp in old(files))
      ensures ok ==> files == old(files)[path := data]
      ensures Holds(files, path) == Some(data) || Holds(files, path) == Holds(old(files), path)
      ensures forall q :: q != path && q != tmp ==> Holds(files, q) == Holds(old(files), q)
    {
      ok := CreateNew(tmp);
      if !ok {
        return;
      }
      ghost var created := files;
      ok := WriteAndSync(tmp, data);
      assert forall q :: q != tmp ==> Holds(files, q) == Holds(files - {tmp}, q) == Holds(created - {tmp}, q);
      if !ok {
        return;
      }
      var verdict := VerifyBytes(tmp, data);
      if !verdict.Same? {
        return false;
      }
      assert files - {tmp} == created - {tmp} == old(files);
      ok := Rename(tmp, path);
      if !ok {
        return;
      }
      verdict := VerifyBytes(path, data);
      ok := verdict.Same?;
    }
  }
}
