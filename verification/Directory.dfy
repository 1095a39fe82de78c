/** node/directory/cache.py: the node's read-only copy of the attendee directory. */
module Directory {
  import opened Wire
  import opened Core

  /** `OtherError` is none of the others and no kind of them: http.client.IncompleteRead for a reply cut short,
      BadStatusLine for a garbled one, RecursionError for one nested too deeply. */
  datatype Exception = OsError | ValueError | KeyError | TypeError | OtherError

  /** A field of a synced row, or what reading it raises: a KeyError when it is missing, a ValueError when it is not
      hex where hex is needed, a TypeError when it, or its row, has the wrong type. */
  datatype Field<+T> = Fits(value: T) | Fails(e: Exception)

  /** No one asks which way a curve key is unusable. */
  datatype Row = Row(username: Field<string>, ed: Field<Bytes>, curve: Option<Bytes>)

  /** A cache file that exists, or a sync reply: the rows it holds, or what getting at them raises. */
  datatype Source = Broken(e: Exception) | Users(rows: seq<Row>)

  datatype Index = Index(byName: map<string, Row>, byEd: map<Bytes, Row>)

  const EMPTY := Index(map[], map[])

  predicate Complete(rows: seq<Row>) {
    forall r :: r in rows ==> r.username.Fits? && r.ed.Fits?
  }

  function IndexRows(c: Crypto, rows: seq<Row>): Index
    requires Complete(rows)
  {
    if rows == [] then EMPTY
    else
      var before, r := IndexRows(c, rows[..|rows| - 1]), rows[|rows| - 1];
      Index(before.byName[r.username.value := r], before.byEd[c.pubkeyId(r.ed.value) := r])
  }

  function Lookup(d: Index, id: Bytes): Option<Row> {
    if id in d.byEd then Some(d.byEd[id]) else None
  }

  /** Every entry is filed under the hash of its own key. */
  predicate WellFiled(c: Crypto, d: Index) {
    forall id :: id in d.byEd ==> d.byEd[id].ed.Fits? && c.pubkeyId(d.byEd[id].ed.value) == id
  }

  predicate IsLast(c: Crypto, rows: seq<Row>, id: Bytes, i: nat)
    requires Complete(rows)
  {
    && i < |rows| && c.pubkeyId(rows[i].ed.value) == id
    && forall j :: i < j < |rows| ==> c.pubkeyId(rows[j].ed.value) != id
  }

  /** A lookup finds the last row whose key hashes to the id, and fails only when there is none. */
  lemma {:induction false} LookupFindsLast(c: Crypto, rows: seq<Row>, id: Bytes)
    requires Complete(rows)
    ensures WellFiled(c, IndexRows(c, rows))
    ensures forall i: nat :: IsLast(c, rows, id, i) ==> Lookup(IndexRows(c, rows), id) == Some(rows[i])
    ensures Lookup(IndexRows(c, rows), id).None? ==> forall r :: r in rows ==> c.pubkeyId(r.ed.value) != id
    decreases |rows|
  {
    if rows != [] {
      var init := rows[..|rows| - 1];
      LookupFindsLast(c, init, id);
      forall i: nat | IsLast(c, rows, id, i)
        ensures Lookup(IndexRows(c, rows), id) == Some(rows[i])
      {
        if i < |init| {
          assert c.pubkeyId(rows[|rows| - 1].ed.value) != id;
          assert IsLast(c, init, id, i);
        }
      }
      assert rows == init + [rows[|rows| - 1]];
    }
  }

  predicate IsLastNamed(rows: seq<Row>, name: string, i: nat) {
    i < |rows| && rows[i].username == Fits(name) && forall j :: i < j < |rows| ==> rows[j].username != Fits(name)
  }

  lemma {:induction false} NamesFindLast(c: Crypto, rows: seq<Row>, name: string)
    requires Complete(rows)
    ensures forall i: nat :: IsLastNamed(rows, name, i) ==>
              name in IndexRows(c, rows).byName && IndexRows(c, rows).byName[name] == rows[i]
    ensures name !in IndexRows(c, rows).byName ==> forall r :: r in rows ==> r.username != Fits(name)
    decreases |rows|
  {
    if rows != [] {
      var init := rows[..|rows| - 1];
      NamesFindLast(c, init, name);
      forall i: nat | IsLastNamed(rows, name, i)
        ensures name in IndexRows(c, rows).byName && IndexRows(c, rows).byName[name] == rows[i]
      {
        if i < |init| {
          assert rows[|rows| - 1].username != Fits(name);
          assert IsLastNamed(init, name, i);
        }
      }
      assert rows == init + [rows[|rows| - 1]];
    }
  }

  function FaultOf<T>(f: Field<T>): Option<Exception> {
    match f
    case Fits(_) => None
    case Fails(e) => Some(e)
  }

  function NameFault(rows: seq<Row>): Option<Exception> {
    if rows == [] then None
    else if NameFault(rows[..|rows| - 1]).None? then FaultOf(rows[|rows| - 1].username)
    else NameFault(rows[..|rows| - 1])
  }

  function KeyFault(rows: seq<Row>): Option<Exception> {
    if rows == [] then None
    else if KeyFault(rows[..|rows| - 1]).None? then FaultOf(rows[|rows| - 1].ed)
    else KeyFault(rows[..|rows| - 1])
  }

  /** What `_index` raises: the first bad field decides, every username before any key. */
  function Indexing(rows: seq<Row>): Option<Exception> {
    if NameFault(rows).None? then KeyFault(rows) else NameFault(rows)
  }

  lemma {:induction false} KeyFaultIsFirst(rows: seq<Row>, i: nat)
    requires i < |rows| && !rows[i].ed.Fits? && KeyFault(rows[..i]).None?
    ensures KeyFault(rows) == FaultOf(rows[i].ed)
    decreases |rows|
  {
    var init := rows[..|rows| - 1];
    if i < |init| {
      assert init[..i] == rows[..i];
      KeyFaultIsFirst(init, i);
    }
  }

  lemma {:induction false} NameFaultIsFirst(rows: seq<Row>, i: nat)
    requires i < |rows| && !rows[i].username.Fits? && NameFault(rows[..i]).None?
    ensures NameFault(rows) == FaultOf(rows[i].username)
    decreases |rows|
  {
    var init := rows[..|rows| - 1];
    if i < |init| {
      assert init[..i] == rows[..i];
      NameFaultIsFirst(init, i);
    }
  }

  lemma {:induction false} FaultlessIsComplete(rows: seq<Row>)
    ensures NameFault(rows).None? <==> forall r :: r in rows ==> r.username.Fits?
    ensures KeyFault(rows).None? <==> forall r :: r in rows ==> r.ed.Fits?
    ensures Indexing(rows).None? <==> Complete(rows)
    decreases |rows|
  {
    if rows != [] {
      FaultlessIsComplete(rows[..|rows| - 1]);
      assert rows == rows[..|rows| - 1] + [rows[|rows| - 1]];
    }
  }

  /** Row `i` has the first username that cannot be read; or, with all usernames good, the first such key. */
  predicate FirstBadName(rows: seq<Row>, i: nat) {
    i < |rows| && rows[i].username.Fails? && forall j :: 0 <= j < i ==> rows[j].username.Fits?
  }

  predicate FirstBadKey(rows: seq<Row>, i: nat) {
    && i < |rows| && rows[i].ed.Fails? && (forall j :: 0 <= j < i ==> rows[j].ed.Fits?)
    && forall j :: 0 <= j < |rows| ==> rows[j].username.Fits?
  }

  /** Indexing raises what the first bad field raises, and works when there is none. */
  lemma IndexingRaisesFirst(rows: seq<Row>, i: nat)
    ensures FirstBadName(rows, i) ==> Indexing(rows) == Some(rows[i].username.e)
    ensures FirstBadKey(rows, i) ==> Indexing(rows) == Some(rows[i].ed.e)
    ensures Complete(rows) <==> Indexing(rows).None?
  {
    FaultlessIsComplete(rows);
    if FirstBadName(rows, i) {
      FaultlessIsComplete(rows[..i]);
      NameFaultIsFirst(rows, i);
    }
    if FirstBadKey(rows, i) {
      FaultlessIsComplete(rows[..i]);
      KeyFaultIsFirst(rows, i);
    }
  }

  /** There is a first bad field whenever the rows are not complete. */
  lemma SomeFieldIsBad(rows: seq<Row>) returns (i: nat)
    requires !Complete(rows)
    ensures FirstBadName(rows, i) || FirstBadKey(rows, i)
  {
    i := 0;
    while i < |rows| && rows[i].username.Fits?
      invariant i <= |rows| && forall j :: 0 <= j < i ==> rows[j].username.Fits?
    {
      i := i + 1;
    }
    if i == |rows| {
      i := 0;
      while i < |rows| && rows[i].ed.Fits?
        invariant i <= |rows| && forall j :: 0 <= j < i ==> rows[j].ed.Fits?
      {
        i := i + 1;
      }
    }
  }

  function Refreshed(c: Crypto, d: Index, from: Source): Index {
    if from.Users? && Complete(from.rows) then IndexRows(c, from.rows) else d
  }

  /** What getting at the rows and indexing them raises. */
  function Reading(from: Source): Option<Exception> {
    match from
    case Broken(e) => Some(e)
    case Users(rows) => Indexing(rows)
  }

  /** The node starts with this cache file: reading it works, or raises one of the two exceptions that are caught. */
  predicate Starts(file: Option<Source>) {
    file.None? || Reading(file.value) in {None, Some(ValueError), Some(KeyError)}
  }

  /** `written`: what writing the cache file raises, if it comes to that. */
  datatype Fetch = Fetch(from: Source, written: Option<Exception>)

  datatype RefreshResult = Synced | Kept | Raised(e: Exception)

  /** Only getting at the rows is guarded, and only against three exceptions. */
  function SyncResult(f: Fetch): RefreshResult {
    match f.from
    case Broken(e) => if e in {OsError, ValueError, KeyError} then Kept else Raised(e)
    case Users(rows) =>
      if Indexing(rows).Some? then Raised(Indexing(rows).value)
      else if f.written.Some? then Raised(f.written.value)
      else Synced
  }

  /** The node starts without a cache file, with a complete one, and with one whose reading or first bad field is a
      ValueError or a KeyError; and with no other. */
  lemma StartsExactly(file: Option<Source>, i: nat)
    ensures file.None? ==> Starts(file)
    ensures file.Some? && file.value.Broken? ==> (Starts(file) <==> file.value.e == ValueError || file.value.e == KeyError)
    ensures file.Some? && file.value.Users? && Complete(file.value.rows) ==> Starts(file)
    ensures file.Some? && file.value.Users? && FirstBadName(file.value.rows, i) ==>
              var e := file.value.rows[i].username.e; Starts(file) <==> e == ValueError || e == KeyError
    ensures file.Some? && file.value.Users? && FirstBadKey(file.value.rows, i) ==>
              var e := file.value.rows[i].ed.e; Starts(file) <==> e == ValueError || e == KeyError
  {
    if file.Some? && file.value.Users? {
      IndexingRaisesFirst(file.value.rows, i);
    }
  }

  /** What a refresh raises is what went wrong, in the order of the steps. */
  lemma RaisedIsFirstWrong(f: Fetch, e: Exception)
    ensures SyncResult(f) == Raised(e) <==>
            || (f.from == Broken(e) && e != OsError && e != ValueError && e != KeyError)
            || (f.from.Users? && Indexing(f.from.rows) == Some(e))
            || (f.from.Users? && Indexing(f.from.rows).None? && f.written == Some(e))
  {
  }

  // ------------------------------------------------------------ the sync thread

  /** How many refreshes are made before one of them raises, that one included; the thread has no handler, so it
      makes no more. `start` makes the first. */
  function Made(fs: seq<Fetch>): (n: nat)
    ensures n <= |fs|
  {
    if fs == [] then 0 else if SyncResult(fs[0]).Raised? then 1 else 1 + Made(fs[1..])
  }

  /** The rows of the last fetch that could be indexed. */
  function LastComplete(fs: seq<Fetch>): (r: Option<seq<Row>>)
    ensures r.Some? ==> Complete(r.value)
  {
    if fs == [] then None
    else
      var from := fs[|fs| - 1].from;
      if from.Users? && Complete(from.rows) then Some(from.rows) else LastComplete(fs[..|fs| - 1])
  }

  /** The copy after these refreshes, all of them made. */
  function CopyAfter(c: Crypto, d: Index, fs: seq<Fetch>): Index {
    if fs == [] then d else Refreshed(c, CopyAfter(c, d, fs[..|fs| - 1]), fs[|fs| - 1].from)
  }

  lemma {:induction false} CopyIsLastComplete(c: Crypto, d: Index, fs: seq<Fetch>)
    ensures CopyAfter(c, d, fs) == if LastComplete(fs).Some? then IndexRows(c, LastComplete(fs).value) else d
    decreases |fs|
  {
    if fs != [] {
      CopyIsLastComplete(c, d, fs[..|fs| - 1]);
    }
  }

  /** If any are left over, the last one made raised, and none before it did. */
  lemma {:induction false} MadeUpToFirstRaise(fs: seq<Fetch>)
    ensures forall i :: 0 <= i < Made(fs) - 1 ==> !SyncResult(fs[i]).Raised?
    ensures Made(fs) < |fs| ==> Made(fs) > 0 && SyncResult(fs[Made(fs) - 1]).Raised?
  {
    if fs != [] && !SyncResult(fs[0]).Raised? {
      MadeUpToFirstRaise(fs[1..]);
    }
  }

  /** Once a refresh has raised the copy is never renewed again, whatever could be fetched later: it stays what the
      last complete fetch up to then made it. */
  lemma {:induction false} FirstRaiseFreezesCopy(c: Crypto, d: Index, fs: seq<Fetch>, later: seq<Fetch>, i: nat)
    requires i < |fs| && SyncResult(fs[i]).Raised?
    ensures Made(fs + later) == Made(fs) && (fs + later)[..Made(fs + later)] == fs[..Made(fs)]
    ensures CopyAfter(c, d, (fs + later)[..Made(fs + later)]) ==
            if LastComplete(fs[..Made(fs)]).Some? then IndexRows(c, LastComplete(fs[..Made(fs)]).value) else d
  {
    MadeWithLater(fs, later, i);
    CopyIsLastComplete(c, d, fs[..Made(fs)]);
  }

  lemma {:induction false} MadeWithLater(fs: seq<Fetch>, later: seq<Fetch>, i: nat)
    requires i < |fs| && SyncResult(fs[i]).Raised?
    ensures Made(fs + later) == Made(fs) && (fs + later)[..Made(fs + later)] == fs[..Made(fs)]
  {
    assert (fs + later)[1..] == fs[1..] + later;
    if !SyncResult(fs[0]).Raised? {
      MadeWithLater(fs[1..], later, i - 1);
    }
  }

  /** One reply cut short, and good rows ever after: the sync thread is gone and the copy is the old one. */
  lemma OneCutReplyFreezesCopy(c: Crypto, d: Index, rows: seq<Row>)
    requires Complete(rows)
    ensures var fs := [Fetch(Broken(OtherError), None), Fetch(Users(rows), None)];
            && SyncResult(fs[0]) == Raised(OtherError) && SyncResult(fs[1]) == Synced
            && Made(fs) == 1 && CopyAfter(c, d, fs[..Made(fs)]) == d && CopyAfter(c, d, fs[1..]) == IndexRows(c, rows)
  {
    var fs := [Fetch(Broken(OtherError), None), Fetch(Users(rows), None)];
    FaultlessIsComplete(rows);
    assert fs[..1] == [fs[0]] && fs[1..] == [fs[1]] && fs[..1][..0] == [] && fs[1..][..0] == [];
  }

  /** A cache file that is there and cannot be read stops the node, where the same error from a fetch is harmless
      and a file that is not JSON is too. */
  lemma UnreadableFileStopsTheNode()
    ensures !Starts(Some(Broken(OsError))) && SyncResult(Fetch(Broken(OsError), None)) == Kept
    ensures Starts(Some(Broken(ValueError))) && Starts(None)
  {
  }

  class DirectoryCache {
    const crypto: Crypto
    var byName: map<string, Row>
    var byEd: map<Bytes, Row>

    function Now(): Index
      reads this
    {
      Index(byName, byEd)
    }

    constructor (c: Crypto)
      ensures crypto == c && Now() == EMPTY
    {
      crypto, byName, byEd := c, map[], map[];
    }

    /** `__init__` with what is on disk, if there is a file; null when it raises. */
    static method Load(c: Crypto, file: Option<Source>) returns (cache: DirectoryCache?)
      ensures cache != null <==> Starts(file)
      ensures cache != null ==> fresh(cache) && cache.crypto == c && WellFiled(c, cache.Now())
      ensures cache != null ==> cache.Now() == if file.None? then EMPTY else Refreshed(c, EMPTY, file.value)
    {
      cache := new DirectoryCache(c);
      if file.None? {
        return;
      }
      var e: Option<Exception>;
      if file.value.Broken? {
        e := Some(file.value.e);
      } else {
        e := cache.IndexUsers(file.value.rows);
      }
      if e.Some? && !e.value.ValueError? && !e.value.KeyError? {
        return null;
      }
    }

    method NamesOf(rows: seq<Row>) returns (fault: Option<Exception>, names: map<string, Row>)
      ensures fault == NameFault(rows)
      ensures Complete(rows) ==> names == IndexRows(crypto, rows).byName
    {
      names := map[];
      for i := 0 to |rows|
        invariant NameFault(rows[..i]).None?
        invariant Complete(rows[..i]) ==> names == IndexRows(crypto, rows[..i]).byName
      {
        assert rows[..i + 1][..i] == rows[..i];
        if !rows[i].username.Fits? {
          NameFaultIsFirst(rows, i);
          return FaultOf(rows[i].username), names;
        }
        names := names[rows[i].username.value := rows[i]];
      }
      assert rows[..|rows|] == rows;
      return None, names;
    }

    method KeysOf(rows: seq<Row>) returns (fault: Option<Exception>, ids: map<Bytes, Row>)
      ensures fault == KeyFault(rows)
      ensures Complete(rows) ==> ids == IndexRows(crypto, rows).byEd
    {
      ids := map[];
      for i := 0 to |rows|
        invariant KeyFault(rows[..i]).None?
        invariant Complete(rows[..i]) ==> ids == IndexRows(crypto, rows[..i]).byEd
      {
        assert rows[..i + 1][..i] == rows[..i];
        if !rows[i].ed.Fits? {
          KeyFaultIsFirst(rows, i);
          return FaultOf(rows[i].ed), ids;
        }
        ids := ids[crypto.pubkeyId(rows[i].ed.value) := rows[i]];
      }
      assert rows[..|rows|] == rows;
      return None, ids;
    }

    /** `_index`: both indexes are built before either is replaced. */
    method IndexUsers(rows: seq<Row>) returns (fault: Option<Exception>)
      requires WellFiled(crypto, Now())
      modifies this
      ensures fault == Indexing(rows) && (fault.None? <==> Complete(rows))
      ensures Now() == Refreshed(crypto, old(Now()), Users(rows)) && WellFiled(crypto, Now())
    {
      FaultlessIsComplete(rows);
      var names, ids;
      fault, names := NamesOf(rows);
      if fault.Some? {
        return;
      }
      fault, ids := KeysOf(rows);
      if fault.Some? {
        return;
      }
      byName, byEd := names, ids;
      LookupFindsLast(crypto, rows, []);
    }

    /** The old copy survives every failure up to the new one's being indexed, but only three kinds of failure to
        get at the rows are reported: everything else raises, a failure to write the file with the new copy in
        place. */
    method Refresh(f: Fetch) returns (r: RefreshResult)
      requires WellFiled(crypto, Now())
      modifies this
      ensures Now() == Refreshed(crypto, old(Now()), f.from) && WellFiled(crypto, Now()) && r == SyncResult(f)
      ensures r == Kept <==> f.from.Broken? && f.from.e in {OsError, ValueError, KeyError}
      ensures r == Synced <==> f.from.Users? && Complete(f.from.rows) && f.written.None?
    {
      if f.from.Broken? {
        return if f.from.e.OsError? || f.from.e.ValueError? || f.from.e.KeyError? then Kept else Raised(f.from.e);
      }
      var fault := IndexUsers(f.from.rows);
      if fault.Some? {
        return Raised(fault.value);
      }
      if f.written.Some? {
        return Raised(f.written.value);
      }
      return Synced;
    }

    /** `start` and then `_loop`, offered these fetches: it ends at the first refresh that raises. */
    method Loop(fs: seq<Fetch>) returns (made: nat)
      requires WellFiled(crypto, Now())
      modifies this
      ensures made == Made(fs) && WellFiled(crypto, Now())
      ensures Now() == CopyAfter(crypto, old(Now()), fs[..made])
    {
      made := 0;
      while made < |fs|
        invariant made <= |fs| && made + Made(fs[made..]) == Made(fs)
        invariant WellFiled(crypto, Now()) && Now() == CopyAfter(crypto, old(Now()), fs[..made])
      {
        assert fs[..made + 1][..made] == fs[..made] && fs[made..][1..] == fs[made + 1..];
        var r := Refresh(fs[made]);
        made := made + 1;
        if r.Raised? {
          return;
        }
      }
    }

    method ByUsername(name: string) returns (r: Option<Row>)
      ensures r == if name in Now().byName then Some(Now().byName[name]) else None
    {
      return if name in byName then Some(byName[name]) else None;
    }

    method ByEd25519Id(id: Bytes) returns (r: Option<Row>)
      ensures r == Lookup(Now(), id)
    {
      return if id in byEd then Some(byEd[id]) else None;
    }

    /** A key of the wrong size is unknown, whatever it hashes to. */
    method AccountFor(senderKey: Bytes) returns (r: Option<Row>)
      requires WellFiled(crypto, Now())
      ensures |senderKey| != 32 ==> r == None
      ensures r.Some? ==> r.value.ed.Fits? && crypto.pubkeyId(r.value.ed.value) == crypto.pubkeyId(senderKey)
      ensures |senderKey| == 32 ==> r == Lookup(Now(), crypto.pubkeyId(senderKey))
    {
      if |senderKey| != 32 {
        return None;
      }
      r := ByEd25519Id(crypto.pubkeyId(senderKey));
    }
  }
}
