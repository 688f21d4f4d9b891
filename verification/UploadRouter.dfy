/**
 Uploading file chunks over QUIC: each chunk index picks one of two storage servers,
 one of the 30 pooled connections to it, and one of 50 streams of its file; streams
 are opened on first use, renewed when sending fails, and closed when the file is
 complete.
 */
module UploadRouter {
  import opened Base

  const POOL_SIZE := 30
  const STREAMS := 50
  const MAX_TRIES := 3
  const MAX_CHUNKS := 8192
  const MAX_CHUNK_BYTES := 1024 * 1024

  // ------------------------------------------------------------- arithmetic

  /** Division that truncates toward zero. */
  function Quot(a: int, m: nat): int
    requires m > 0
  {
    if a >= 0 then a / m else -((-a) / m)
  }

  predicate ToServer1(chunk: int) {
    Rem(chunk, 2) == 0
  }

  function PoolIndex(chunk: int): int {
    Rem(Quot(chunk, 2), POOL_SIZE)
  }

  function StreamIndex(chunk: int): int {
    Rem(chunk, STREAMS)
  }

  /** The connection slot is in range for every chunk index from -1 on, and below that
      exactly when half of it is a multiple of the pool size. */
  lemma SlotInRange(chunk: int)
    ensures 0 <= PoolIndex(chunk) < POOL_SIZE <==> chunk >= -1 || (-chunk / 2) % POOL_SIZE == 0
  {}

  lemma ParityOfRemainder(n: nat)
    ensures n % STREAMS % 2 == n % 2
  {
    var q, r := n / STREAMS, n % STREAMS;
    assert n == STREAMS * q + r;
    assert n == 2 * (25 * q + r / 2) + r % 2;
  }

  /** The stream index names the server, so chunks on one stream go to one server. */
  lemma StreamNamesServer(c: int, d: int)
    ensures ToServer1(c) <==> StreamIndex(c) % 2 == 0
    ensures StreamIndex(c) == StreamIndex(d) ==> (ToServer1(c) <==> ToServer1(d))
  {
    ParityOfRemainder(if c >= 0 then c else -c);
    ParityOfRemainder(if d >= 0 then d else -d);
    assert forall x: int :: (-x) % 2 == 0 <==> x % 2 == 0;
  }

  // ------------------------------------------------------------ stream keys

  datatype StreamKey = StreamKey(file: string, server1: bool, index: int)

  function Digits(n: nat): (s: string)
    ensures s != ""
  {
    var last := ['0' + (n % 10) as char];
    if n < 10 then last else Digits(n / 10) + last
  }

  function Number(s: string): int {
    if s == "" then 0 else 10 * Number(s[..|s| - 1]) + (s[|s| - 1] as int - '0' as int)
  }

  lemma {:induction false} DigitsRoundTrip(n: nat)
    ensures Number(Digits(n)) == n
  {
    var s := Digits(n);
    assert s[|s| - 1] == '0' + (n % 10) as char;
    if n < 10 {
      assert s[..|s| - 1] == "";
    } else {
      DigitsRoundTrip(n / 10);
      assert s[..|s| - 1] == Digits(n / 10);
    }
  }

  /** The text under which a stream is stored. */
  function Render(k: StreamKey): string
    requires k.index >= 0
  {
    k.file + (if k.server1 then "_true_" else "_false_") + Digits(k.index)
  }

  /** Keys of equally long file names, as all hexadecimal digests are, never collide. */
  lemma RenderInjective(k: StreamKey, l: StreamKey)
    requires k.index >= 0 && l.index >= 0 && |k.file| == |l.file| && Render(k) == Render(l)
    ensures k == l
  {
    var n := |k.file|;
    var kt, lt := (if k.server1 then "_true_" else "_false_"), (if l.server1 then "_true_" else "_false_");
    var r := Render(k);
    assert r[..n] == k.file && r[..n] == l.file;
    assert r[n + 1] == kt[1] && r[n + 1] == lt[1];
    assert kt == lt;
    assert r[n + |kt|..] == Digits(k.index) && r[n + |kt|..] == Digits(l.index);
    DigitsRoundTrip(k.index);
    DigitsRoundTrip(l.index);
  }

  // ------------------------------------------------------------ the handler

  datatype Conn = Conn(id: nat, server1: bool, alive: bool)

  /** A stream, and the server and connection slot it was opened on. */
  datatype Stream = Stream(id: nat, server1: bool, slot: nat)

  datatype FileInfo = FileInfo(total: nat, active: bool, owner: nat)
  datatype Progress = Progress(total: nat, completed: nat)

  datatype Send = Sent(completed: bool) | Lost | Panicked

  /** Why there is no connection; indexing a pool out of range panics. */
  datatype Trouble = DialFailed | OutOfRange

  /** What the outside does during one call: the file's record if it is asked for, and
      per attempt the result of dialling, of opening a stream and of sending (whether
      the server confirmed completion, if the sending succeeded). */
  datatype World = World(
    info: Option<FileInfo>, dial: nat -> Option<nat>, open: nat -> Option<nat>, send: nat -> Option<bool>)

  datatype Reply = Uploaded(completed: bool) | Refused | NoConnection | SendFailed | IndexPanic

  function Dialled(id: Option<nat>, server1: bool): Option<Conn> {
    if id.Some? then Some(Conn(id.value, server1, true)) else None
  }

  predicate StreamOk(k: StreamKey, s: Stream) {
    -STREAMS < k.index < STREAMS && (k.server1 <==> k.index % 2 == 0) && s.server1 == k.server1 && s.slot < POOL_SIZE
  }

  /** The confirmations a file needs: one per server that has any of its chunks. */
  function Threshold(total: nat): nat {
    if total == 1 then 1 else 2
  }

  /** Only the owner adds chunks, to a known file that is not too large and not yet
      active, and no chunk is larger than the limit. */
  predicate Admissible(info: Option<FileInfo>, from: nat, bytes: nat) {
    && info.Some? && info.value.total <= MAX_CHUNKS && !info.value.active
    && info.value.owner == from && bytes <= MAX_CHUNK_BYTES
  }

  class FileHandler {
    var infos: map<string, FileInfo>
    var progress: map<string, Progress>
    var streams: map<StreamKey, Stream>
    var pool1: seq<Option<Conn>>
    var pool2: seq<Option<Conn>>
    var initialized: bool

    /** Every stream stored is that of its key: in range, of the right parity, opened on
        the right server's pool. */
    ghost predicate Valid()
      reads this
    {
      && |pool1| == |pool2| == POOL_SIZE
      && (forall i :: 0 <= i < POOL_SIZE && pool1[i].Some? ==> pool1[i].value.server1)
      && (forall i :: 0 <= i < POOL_SIZE && pool2[i].Some? ==> !pool2[i].value.server1)
      && (forall k :: k in streams ==> StreamOk(k, streams[k]))
    }

    constructor ()
      ensures Valid() && streams == map[] && infos == map[] && progress == map[]
    {
      infos, progress, streams := map[], map[], map[];
      pool1, pool2 := seq(POOL_SIZE, _ => None), seq(POOL_SIZE, _ => None);
      initialized := false;
    }

    /** Makes both pools anew, dialling every slot; when the servers are not found the
        pools stay as they are, and that too is tried only once. */
    method Initialize(servers: Option<(nat -> Option<nat>, nat -> Option<nat>)>)
      requires Valid()
      modifies this`pool1, this`pool2, this`initialized
      ensures Valid() && initialized
      ensures servers.None? ==> pool1 == old(pool1) && pool2 == old(pool2)
      ensures servers.Some? ==> forall i :: 0 <= i < POOL_SIZE ==>
        && pool1[i] == Dialled(servers.value.0(i), true) && pool2[i] == Dialled(servers.value.1(i), false)
    {
      if servers.Some? {
        var (dial1, dial2) := servers.value;
        var new1, new2 := seq(POOL_SIZE, _ => None), seq(POOL_SIZE, _ => None);
        for i := 0 to POOL_SIZE
          invariant |new1| == |new2| == POOL_SIZE
          invariant forall j :: 0 <= j < i ==> new1[j] == Dialled(dial1(j), true) && new2[j] == Dialled(dial2(j), false)
        {
          new1 := new1[i := Dialled(dial1(i), true)];
          new2 := new2[i := Dialled(dial2(i), false)];
        }
        pool1, pool2 := new1, new2;
      }
      initialized := true;
    }

    method GetAndRenewConn(server1: bool, slot: int, dialled: Option<nat>) returns (r: Result<Conn, Trouble>)
      requires Valid()
      modifies this`pool1, this`pool2
      ensures Valid()
      ensures r == Err(OutOfRange) <==> !(0 <= slot < POOL_SIZE)
      ensures r.Ok? ==>
          r.value.server1 == server1 && r.value.alive && (if server1 then pool1 else pool2)[slot] == Some(r.value)
      ensures r.Err? ==> dialled.None? || r.error == OutOfRange
    {
      if slot < 0 || slot >= POOL_SIZE {
        return Err(OutOfRange);
      }
      var conn := if server1 then pool1[slot] else pool2[slot];
      if conn.Some? && conn.value.alive {
        return Ok(conn.value);
      }
      if dialled.None? {
        return Err(DialFailed);
      }
      var renewed := Conn(dialled.value, server1, true);
      if server1 {
        pool1 := pool1[slot := Some(renewed)];
      } else {
        pool2 := pool2[slot := Some(renewed)];
      }
      return Ok(renewed);
    }

    /** Up to three attempts; between them the stream of the key is renewed on the same
        server and slot where possible, and after them the pools are to be made anew. */
    method SendChunk(key: StreamKey, slot: int, w: World) returns (r: Send)
      requires Valid() && key in streams
      modifies this`pool1, this`pool2, this`streams, this`initialized
      ensures Valid() && streams.Keys == old(streams).Keys
      ensures initialized == (old(initialized) && !r.Lost?)
      ensures forall k :: k in streams && k != key ==> streams[k] == old(streams)[k]
      ensures streams[key] == old(streams)[key] || streams[key].slot == slot
      ensures r.Panicked? ==> !(0 <= slot < POOL_SIZE)
      ensures 0 <= slot < POOL_SIZE ==> (r.Lost? <==> forall i :: 0 <= i < MAX_TRIES ==> w.send(i).None?)
      ensures r.Sent? ==> exists i :: (0 <= i < MAX_TRIES && w.send(i) == Some(r.completed) &&
          forall j :: 0 <= j < i ==> w.send(j).None?)
    {
      for i := 0 to MAX_TRIES
        invariant Valid() && streams.Keys == old(streams).Keys
        invariant forall k :: k in streams && k != key ==> streams[k] == old(streams)[k]
        invariant streams[key] == old(streams)[key] || streams[key].slot == slot
        invariant forall j :: 0 <= j < i ==> w.send(j).None?
        invariant initialized == old(initialized)
      {
        if w.send(i).Some? {
          return Sent(w.send(i).value);
        }
        var conn := GetAndRenewConn(key.server1, slot, w.dial(i + 1));
        if conn == Err(OutOfRange) {
          return Panicked;
        }
        if conn.Ok? && w.open(i + 1).Some? {
          assert StreamOk(key, streams[key]);
          streams := streams[key := Stream(w.open(i + 1).value, conn.value.server1, slot)];
        }
      }
      initialized := false;
      return Lost;
    }

    method FindStream(key: StreamKey, slot: int, w: World) returns (trouble: Option<Trouble>)
      requires Valid() && -STREAMS < key.index < STREAMS && (key.server1 <==> key.index % 2 == 0)
      modifies this`pool1, this`pool2, this`streams
      ensures Valid()
      ensures trouble.None? ==> streams.Keys == old(streams).Keys + {key}
      ensures trouble.Some? ==> streams == old(streams) && key !in streams
      ensures trouble == Some(OutOfRange) ==> !(0 <= slot < POOL_SIZE)
      ensures forall k :: k in old(streams) ==> k in streams && streams[k] == old(streams)[k]
    {
      if key in streams {
        return None;
      }
      var conn := GetAndRenewConn(key.server1, slot, w.dial(0));
      if conn.Err? {
        return Some(conn.error);
      }
      if w.open(0).None? {
        return Some(DialFailed);
      }
      streams := streams[key := Stream(w.open(0).value, conn.value.server1, slot)];
      return None;
    }

    /** Close and forget the streams of a file, by going through all its keys. */
    method Sweep(file: string)
      requires Valid()
      modifies this`streams
      ensures Valid()
      ensures streams == map k | k in old(streams) && (k.file != file || k.index < 0) :: old(streams)[k]
    {
      for i := 0 to STREAMS
        invariant Valid()
        invariant streams == map k | k in old(streams) &&
            (k.file != file || k.index < 0 || k.index >= i) :: old(streams)[k]
      {
        var key1 := StreamKey(file, true, i);
        if key1 in streams {
          streams := streams - {key1};
        }
        var key2 := StreamKey(file, false, i);
        if key2 in streams {
          streams := streams - {key2};
        }
      }
    }

    /** The confirmations of a file as a call finds them. */
    ghost function Entry(file: string, w: World): Progress
      reads this
    {
      if file in progress then progress[file]
      else if file in infos then Progress(infos[file].total, 0)
      else if w.info.Some? then Progress(w.info.value.total, 0)
      else Progress(0, 0)
    }

    /** The record of a file that a call goes by: the cached one, or else the chain's. */
    ghost function Known(file: string, w: World): Option<FileInfo>
      reads this
    {
      if file in infos then Some(infos[file]) else w.info
    }

    /** The checks before a chunk is sent; they also fill the caches. */
    method Admit(file: string, from: nat, bytes: nat, w: World) returns (ok: bool)
      requires Valid()
      modifies this`infos, this`progress
      ensures Valid()
      ensures ok <==> Admissible(old(Known(file, w)), from, bytes)
      ensures ok ==> file in infos
      ensures ok ==> file in progress && progress[file] == old(Entry(file, w))
    {
      if file !in infos {
        if w.info.None? {
          return false;
        }
        infos := infos[file := w.info.value];
      }
      var info := infos[file];
      if info.total > MAX_CHUNKS {
        return false;
      }
      if info.active {
        progress := progress - {file};
        infos := infos - {file};
        return false;
      }
      if from != info.owner || bytes > MAX_CHUNK_BYTES {
        return false;
      }
      if file !in progress {
        progress := progress[file := Progress(info.total, 0)];
      }
      return true;
    }

    /** One chunk, from the checks to the clean-up.  Streams of other files are never
        touched.  The chunk that brings the last confirmation the file was waiting for,
        and no other, removes the file's streams. */
    method UploadChunk(file: string, chunk: int, from: nat, bytes: nat, w: World) returns (r: Reply)
      requires Valid()
      modifies this
      ensures Valid()
      ensures forall k: StreamKey :: k.file != file ==>
        (k in streams <==> k in old(streams)) && (k in streams ==> streams[k] == old(streams)[k])
      ensures chunk >= 0 ==> forall k :: k in streams && k !in old(streams) ==> k.index >= 0
      ensures r.Refused? <==> !Admissible(old(Known(file, w)), from, bytes)
      ensures r.Refused? || r.NoConnection? ==> streams == old(streams)
      ensures initialized == (old(initialized) && !r.SendFailed?)
      ensures r.IndexPanic? ==> !(0 <= PoolIndex(chunk) < POOL_SIZE)
      ensures r.Uploaded? ==>
        var key := StreamKey(file, ToServer1(chunk), StreamIndex(chunk));
        var done := r.completed && old(Entry(file, w)).completed + 1 >= Threshold(old(Entry(file, w)).total);
        if done then
          && file !in progress
          && forall k :: k in streams <==> k in old(streams).Keys + {key} && (k.file != file || k.index < 0)
        else streams.Keys == old(streams).Keys + {key}
             && file in progress &&
                 progress[file].completed == old(Entry(file, w)).completed + (if r.completed then 1 else 0)
    {
      var ok := Admit(file, from, bytes, w);
      if !ok {
        return Refused;
      }
      var server1, slot, index := ToServer1(chunk), PoolIndex(chunk), StreamIndex(chunk);
      StreamNamesServer(chunk, chunk);
      var key := StreamKey(file, server1, index);
      var trouble := FindStream(key, slot, w);
      if trouble.Some? {
        return if trouble.value == OutOfRange then IndexPanic else NoConnection;
      }
      var sent := SendChunk(key, slot, w);
      if !sent.Sent? {
        return if sent.Panicked? then IndexPanic else SendFailed;
      }
      if sent.completed {
        Confirm(file);
      }
      return Uploaded(sent.completed);
    }

    /** The call from outside: the pools are made first if they are to be. */
    method HandleChunk(file: string, chunk: int, from: nat, bytes: nat, w: World,
            servers: Option<(nat -> Option<nat>, nat -> Option<nat>)>)
      returns (r: Reply)
      requires Valid()
      modifies this
      ensures Valid() && initialized == !r.SendFailed?
      ensures forall k: StreamKey :: k.file != file ==>
        (k in streams <==> k in old(streams)) && (k in streams ==> streams[k] == old(streams)[k])
      ensures r.Refused? <==> !Admissible(old(Known(file, w)), from, bytes)
    {
      if !initialized {
        Initialize(servers);
      }
      r := UploadChunk(file, chunk, from, bytes, w);
    }

    method Confirm(file: string)
      requires Valid() && file in progress
      modifies this`progress, this`infos, this`streams
      ensures Valid()
      ensures var p := old(progress)[file];
        if p.completed + 1 >= Threshold(p.total) then
          file !in progress && streams == map k | k in old(streams) &&
              (k.file != file || k.index < 0) :: old(streams)[k]
        else
          streams == old(streams) && progress == old(progress)[file := p.(completed := p.completed + 1)]
    {
      var p := progress[file].(completed := progress[file].completed + 1);
      progress := progress[file := p];
      if p.completed >= Threshold(p.total) {
        progress := progress - {file};
        infos := infos - {file};
        Sweep(file);
      }
    }
  }

  // ------------------------------------------------------- streams per server

  /** The keys chunks from 0 on can have on a server: one per index of a parity. */
  ghost function KeysOf(file: string, server1: bool, n: nat): (s: set<StreamKey>)
    ensures |s| <= n
  {
    if n == 0 then {} else KeysOf(file, server1, n - 1) + {NthKey(file, server1, n - 1)}
  }

  function NthKey(file: string, server1: bool, i: nat): StreamKey {
    StreamKey(file, server1, if server1 then 2 * i else 2 * i + 1)
  }

  lemma {:induction false} KeyCounted(file: string, server1: bool, n: nat, i: nat)
    requires i < n
    ensures NthKey(file, server1, i) in KeysOf(file, server1, n)
  {
    if i == n - 1 {
    } else {
      KeyCounted(file, server1, n - 1, i);
    }
  }

  /** A file never has more than 25 streams to a server for its chunks from 0 on. */
  lemma AtMost25PerServer(h: FileHandler, file: string, server1: bool)
    requires h.Valid()
    ensures |set k | k in h.streams && k.file == file && k.server1 == server1 && k.index >= 0| <= 25
  {
    var mine := set k | k in h.streams && k.file == file && k.server1 == server1 && k.index >= 0;
    var all := KeysOf(file, server1, 25);
    forall k | k in mine ensures k in all {
      assert StreamOk(k, h.streams[k]);
      KeyCounted(file, server1, 25, k.index / 2);
      assert k == NthKey(file, server1, k.index / 2);
    }
    assert all == mine + (all - mine);
  }
}
