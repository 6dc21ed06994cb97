/** The log as the bytes of its file underneath the log as a list of entries: recovery from the file is recovery
    from the entries, and what a crash in the middle of an append does. */
module ByteDisk {
  import opened Types
  import opened Crypto
  import opened Storage
  import opened ReplicaModel
  import opened Recovery
  import opened Durability
  import W = Wal

  type LogCodec = W.Codec<LogEntry>

  datatype DiskError = BadLog(log: W.WalError) | BadReplay(replay: RecoveryError)

  /** The bytes of a log file with these entries. */
  function FileOf(c: LogCodec, id: ReplicaId, created: nat, es: seq<LogEntry>): seq<W.Byte> {
    W.Header(id, created) + W.Frames(c, es)
  }

  /** Recovery as it reads the disk: the log file, next to the other files, is opened and parsed before anything is
      replayed. */
  function RecoverFile(c: LogCodec, config: Config, keys: KeyStore, others: Store, file: seq<W.Byte>)
    : Result<ReplicaState, DiskError>
  {
    match W.Opened(c, file)
    case Err(x) => Err(BadLog(x))
    case Ok(es) =>
      match Recover(config, keys, others.(log := Some(es)))
      case Err(x) => Err(BadReplay(x))
      case Ok(s) => Ok(s)
  }

  function Lift(r: Result<ReplicaState, RecoveryError>): Result<ReplicaState, DiskError> {
    match r
    case Err(x) => Err(BadReplay(x))
    case Ok(s) => Ok(s)
  }

  /** The file of a log whose last append was cut after n bytes of its frame. */
  function TornFile(c: LogCodec, id: ReplicaId, created: nat, es: seq<LogEntry>, e: LogEntry, n: nat): seq<W.Byte>
    requires n <= |W.Frame(c, e)|
  {
    FileOf(c, id, created, es) + W.Frame(c, e)[..n]
  }

  lemma {:induction false} WholeOfTorn(c: LogCodec, es: seq<LogEntry>, e: LogEntry, n: nat)
    requires n <= |W.Frame(c, e)|
    ensures W.Whole(c, es + [e], |W.Frames(c, es)| + n) == if n == |W.Frame(c, e)| then |es| + 1 else |es|
    decreases |es|
  {
    if es == [] {
      assert es + [e] == [e] && [e][1..] == [];
    } else {
      WholeOfTorn(c, es[1..], e, n);
      assert (es + [e])[1..] == es[1..] + [e];
      hide W.Frame;
    }
  }

  /** What opening finds after an append of e was cut after n bytes: everything if it was not cut, everything but e
      if not even the length field was complete, and an error otherwise. */
  lemma TornOpens(c: LogCodec, id: ReplicaId, created: nat, es: seq<LogEntry>, e: LogEntry, n: nat)
    requires W.Faithful(c) && W.AllFit(c, es) && W.Fits(c, e) && n <= |W.Frame(c, e)|
    ensures W.Opened(c, TornFile(c, id, created, es, e, n)) ==
            if n == |W.Frame(c, e)| then Ok(es + [e]) else if n < 4 then Ok(es) else Err(W.UnexpectedEof)
  {
    hide W.Frame, W.Header, W.Opened, W.Faithful, W.Fits, W.Whole, W.Frames;
    var all, m := es + [e], |W.Frames(c, es)| + n;
    W.FramesConcat(c, es, [e]);
    W.FramesOne(c, e);
    WholeOfTorn(c, es, e, n);
    W.OpenPrefix(c, id, created, all, W.HEADER_SIZE + m);
    assert (W.Header(id, created) + W.Frames(c, all))[..W.HEADER_SIZE + m] == TornFile(c, id, created, es, e, n);
    assert all[..|es|] == es && all[..|es| + 1] == all;
  }

  /** Recovery from the file of a log is recovery from its entries. */
  lemma FileRefinesEntries(c: LogCodec, id: ReplicaId, created: nat, config: Config, keys: KeyStore, store: Store)
    requires W.Faithful(c) && W.AllFit(c, store.Entries()) && store.log.Some?
    ensures RecoverFile(c, config, keys, store, FileOf(c, id, created, store.Entries()))
            == Lift(Recover(config, keys, store))
  {
    hide W.Header, W.Frames, W.Faithful, W.AllFit, W.Parse, Recover, W.HeaderError;
    W.ReadBack(c, W.Header(id, created), store.Entries());
    W.GoodHeader(id, created, W.Frames(c, store.Entries()));
    assert store == store.(log := Some(store.Entries()));
  }

  /** A crash after n bytes of an append recovers as if the append had happened when all bytes are there, as if it
      had not when the length field is incomplete, and is refused in between. */
  lemma TornAppend(c: LogCodec, id: ReplicaId, created: nat, config: Config, keys: KeyStore, store: Store, e: LogEntry,
                   n: nat)
    requires W.Faithful(c) && W.AllFit(c, store.Entries()) && W.Fits(c, e) && store.log.Some?
    requires n <= |W.Frame(c, e)|
    ensures RecoverFile(c, config, keys, store, TornFile(c, id, created, store.Entries(), e, n)) ==
            if n == |W.Frame(c, e)| then Lift(Recover(config, keys, store.Append(e)))
            else if n < 4 then Lift(Recover(config, keys, store))
            else Err(BadLog(W.UnexpectedEof))
  {
    hide W.Frame, W.Faithful, W.AllFit, W.Fits, W.Opened, TornFile, Recover;
    TornOpens(c, id, created, store.Entries(), e, n);
    assert store == store.(log := Some(store.Entries()));
    assert store.Append(e) == store.(log := Some(store.Entries() + [e]));
  }

  /** A crash at any byte of a commit's write: one block ahead when the write is complete, the exact log when its
      length field is not, no recovery in between; and when there is recovery, the view is the live one. */
  lemma CommitCrashAtByte(c: LogCodec, id: ReplicaId, created: nat, s: ReplicaState, b: Block, n: nat)
    requires Durable(s) && W.Faithful(c) && W.AllFit(c, s.store.Entries())
    requires W.Fits(c, CommittedEntry(b, |s.committedLog|))
    requires n <= |W.Frame(c, CommittedEntry(b, |s.committedLog|))|
    ensures var e := CommittedEntry(b, |s.committedLog|);
            var r := RecoverFile(c, s.config, s.keystore, s.store,
                                 TornFile(c, id, created, s.store.Entries(), e, n));
            && (r.Err? <==> 4 <= n < |W.Frame(c, e)|)
            && (r.Ok? ==> && r.value.currentView == s.currentView
                          && KeysOf(r.value.committedLog) == KeysOf(s.committedLog) +
                                                            if n == |W.Frame(c, e)| then [KeyOf(b)] else [])
  {
    hide W.Frame, W.Faithful, W.AllFit, W.Fits, RecoverFile, TornFile, Recover;
    var e := CommittedEntry(b, |s.committedLog|);
    assert 8 <= |W.Frame(c, e)|;
    TornAppend(c, id, created, s.config, s.keystore, s.store, e, n);
    CommitCrash(s, [b], 0);
    CommitCrash(s, [b], 1);
    assert CommitEntries([b], |s.committedLog|) == [e];
    assert [e][..1] == [e] && [b][..1] == [b] && [b][..0] == [];
    assert KeysOf(s.committedLog) + [] == KeysOf(s.committedLog);
  }
}
