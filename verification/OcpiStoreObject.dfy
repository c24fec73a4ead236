/** The OCPI store as an object: maps, capped log and disk updated in place, and the loaders run at start-up. */
module OcpiStoreObject {
  import opened Common
  import opened OcpiStore
  import Lines

  /** Reading a directory in listing order. */
  method LoadRecords<T>(names: seq<string>, d: Dir<T>, id: T -> string) returns (m: map<string, T>)
    ensures m == LoadDir(names, d, id)
  {
    m := map[];
    for i := 0 to |names|
      invariant m == LoadDir(names[..i], d, id)
    {
      assert names[..i + 1][..i] == names[..i];
      var n := names[i];
      if !IsRecordFile(n) || n !in d {
        continue;
      }
      match d[n]
      case Garbage =>
      case Json(v) =>
        if id(v) != "" {
          m := m[id(v) := v];
        }
    }
    assert names[..|names|] == names;
  }

  /** Reading the audit log: all lines forwards, the newest hundred backwards. */
  method LoadAuthz(codec: Codec, file: string) returns (log: seq<Event>)
    ensures log == LogView(DiskEvents(codec, file))
  {
    var events := LoadEvents(codec, file);
    if |events| > AUTHZ_LOG_MAX {
      events := events[|events| - AUTHZ_LOG_MAX..];
    }
    log := [];
    var i := |events| - 1;
    while i >= 0
      invariant -1 <= i < |events|
      invariant log == Reverse(events)[..|events| - 1 - i]
    {
      log := log + [events[i]];
      i := i - 1;
    }
    assert Reverse(events)[..|events|] == Reverse(events);
  }

  method LoadEvents(codec: Codec, file: string) returns (events: seq<Event>)
    ensures events == DiskEvents(codec, file)
  {
    var ps := Lines.Split(file);
    events := [];
    for i := 0 to |ps|
      invariant events == Events(codec, ps[..i])
    {
      assert ps[..i + 1][..i] == ps[..i];
      var line := Trim(ps[i]);
      if line == "" {
        continue;
      }
      var e := codec.parse(line);
      if e.Some? {
        events := events + [e.value];
      }
    }
    assert ps[..|ps|] == ps;
  }

  class Store {
    const codec: Codec
    var tokens: map<string, Prepay>
    var cdrs: map<string, Cdr>
    var log: seq<Event>
    var prepayDir: Dir<Prepay>
    var cdrDir: Dir<Cdr>
    var authz: string

    ghost function MemView(): Mem
      reads this
    {
      Mem(tokens, cdrs, log)
    }

    ghost function DiskView(): Disk
      reads this
    {
      Disk(prepayDir, cdrDir, authz)
    }

    /** Opening a data directory with the given listings. */
    constructor (codec: Codec, disk: Disk, prepayNames: seq<string>, cdrNames: seq<string>)
      ensures this.codec == codec && DiskView() == disk
      ensures MemView() == Reload(codec, disk, prepayNames, cdrNames)
    {
      this.codec := codec;
      prepayDir, cdrDir, authz := disk.prepay, disk.cdrs, disk.authz;
      tokens, cdrs, log := map[], map[], [];
      new;
      cdrs := LoadRecords(cdrNames, disk.cdrs, CdrId);
      tokens := LoadRecords(prepayNames, disk.prepay, PrepayId);
      log := LoadAuthz(codec, disk.authz);
    }

    /** Atomic replacement of one prepay file: temporary file, then rename. */
    method PersistPrepay(r: Prepay)
      modifies this`prepayDir
      ensures DiskView() == DoSteps(old(DiskView()), PrepaySteps(r))
      ensures r.uid != "" ==> FileName(r.uid) in prepayDir && prepayDir[FileName(r.uid)] == Json(r)
      ensures r.uid == "" ==> prepayDir == old(prepayDir)
    {
      if r.uid == "" {
        return;
      }
      var path := SanitizeFileName(r.uid);
      path := path + ".json";
      ghost var before := DiskView();
      prepayDir := prepayDir[path + ".tmp" := Json(r)];
      prepayDir := (prepayDir - {path + ".tmp"})[path := prepayDir[path + ".tmp"]];
      DoTwo(before, PrepayStep(WriteTmp(path, r)), PrepayStep(Rename(path)));
    }

    method PersistCdr(c: Cdr)
      modifies this`cdrDir
      ensures DiskView() == DoSteps(old(DiskView()), CdrSteps(c))
      ensures c.id != "" ==> FileName(c.id) in cdrDir && cdrDir[FileName(c.id)] == Json(c)
      ensures c.id == "" ==> cdrDir == old(cdrDir)
    {
      if c.id == "" {
        return;
      }
      var path := SanitizeFileName(c.id);
      path := path + ".json";
      ghost var before := DiskView();
      cdrDir := cdrDir[path + ".tmp" := Json(c)];
      cdrDir := (cdrDir - {path + ".tmp"})[path := cdrDir[path + ".tmp"]];
      DoTwo(before, CdrStep(WriteTmp(path, c)), CdrStep(Rename(path)));
    }

    method PutPrepayRecord(r: Prepay)
      modifies this
      ensures MemView() == MemAfter(old(MemView()), PutPrepay(r))
      ensures DiskView() == DoSteps(old(DiskView()), StepsOf(codec, old(MemView()), PutPrepay(r)))
      ensures tokens == old(tokens)[r.uid := r] && cdrs == old(cdrs) && log == old(log)
      ensures r.uid != "" ==> FileName(r.uid) in prepayDir && prepayDir[FileName(r.uid)] == Json(r)
      ensures cdrDir == old(cdrDir) && authz == old(authz)
    {
      tokens := tokens[r.uid := r];
      PersistPrepay(r);
    }

    method MarkPrepayAuthorized(uid: string, now: int)
      modifies this
      ensures MemView() == MemAfter(old(MemView()), MarkAuthorized(uid, now))
      ensures DiskView() == DoSteps(old(DiskView()), StepsOf(codec, old(MemView()), MarkAuthorized(uid, now)))
      ensures tokens.Keys == old(tokens).Keys && cdrs == old(cdrs) && log == old(log)
      ensures forall k :: k in tokens ==>
                tokens[k] == if k == uid then old(tokens)[k].(authorizedAt := Some(now)) else old(tokens)[k]
      ensures cdrDir == old(cdrDir) && authz == old(authz)
      ensures uid in tokens && tokens[uid].uid != "" ==>
                FileName(tokens[uid].uid) in prepayDir && prepayDir[FileName(tokens[uid].uid)] == Json(tokens[uid])
    {
      if uid in tokens {
        var r := tokens[uid].(authorizedAt := Some(now));
        tokens := tokens[uid := r];
        PersistPrepay(r);
      }
    }

    method PutCdrRecord(c: Cdr)
      modifies this
      ensures MemView() == MemAfter(old(MemView()), PutCdr(c))
      ensures DiskView() == DoSteps(old(DiskView()), StepsOf(codec, old(MemView()), PutCdr(c)))
      ensures cdrs == old(cdrs)[c.id := c] && tokens.Keys == old(tokens).Keys && log == old(log)
      ensures forall k :: k in tokens ==>
                tokens[k] == if k == c.authId then old(tokens)[k].(used := true) else old(tokens)[k]
      ensures c.id != "" ==> FileName(c.id) in cdrDir && cdrDir[FileName(c.id)] == Json(c)
      ensures authz == old(authz)
      ensures c.authId in tokens && tokens[c.authId].uid != "" ==>
                var f := FileName(tokens[c.authId].uid);
                f in prepayDir && prepayDir[f] == Json(tokens[c.authId])
    {
      ghost var before := DiskView();
      cdrs := cdrs[c.id := c];
      PersistCdr(c);
      if c.authId in tokens {
        var r := tokens[c.authId].(used := true);
        tokens := tokens[c.authId := r];
        PersistPrepay(r);
        DoConcat(before, CdrSteps(c), PrepaySteps(r));
      } else {
        assert CdrSteps(c) + [] == CdrSteps(c);
      }
    }

    method AppendAuthzEvent(e: Event)
      modifies this
      ensures MemView() == MemAfter(old(MemView()), AppendAuthz(e))
      ensures DiskView() == DoSteps(old(DiskView()), StepsOf(codec, old(MemView()), AppendAuthz(e)))
      ensures tokens == old(tokens) && cdrs == old(cdrs) && prepayDir == old(prepayDir) && cdrDir == old(cdrDir)
      ensures |log| == (if |old(log)| < 100 then |old(log)| + 1 else 100) && log[0] == e
      ensures forall i :: 1 <= i < |log| ==> log[i] == old(log)[i - 1]
      ensures authz == old(authz) + codec.render(e) + "\n"
    {
      log := [e] + log;
      if |log| > AUTHZ_LOG_MAX {
        log := log[..AUTHZ_LOG_MAX];
      }
      var data := codec.render(e) + "\n";
      authz := authz + data;
      assert [AppendStep(data)][1..] == [];
    }
  }
}
