/**
  When do uploads of one client disturb each other? The metadata of an upload named "a" is kept in the file
  ".a.meta" of the same directory (src/file/ft_file_meta.cpp:31-33). If somebody uploads a file under that
  very name, one file serves two purposes, and an upload reported complete can be changed afterwards.
  A set of names is safe for all contents exactly when this cannot happen.
 */
module Names {
  import opened Machine
  import opened Metadata
  import opened Storage
  import opened Handlers
  import opened Worker
  import opened Transfer
  import opened Session
  import opened Progress
  import opened ManyUploads

  // ---------------------------------------------------------------- a session of one upload, among all

  /** What the moves of one upload leave alone: the other files, and completions reported before. */
  ghost predicate Beside(g: World, g': World, k: Key) {
    && g.completed <= g'.completed
    && (forall p :: p != TargetPath(k) && p != MetaPath(k) ==> Lookup(g'.files, p) == Lookup(g.files, p))
    && (forall i :: i in g'.tokens ==> i in g.tokens && TokenKey(g'.tokens[i]) == TokenKey(g.tokens[i]))
  }

  lemma PutBeside(files: map<Path, Bytes>, k: Key, d: Files)
    ensures forall p :: p != TargetPath(k) && p != MetaPath(k) ==> Lookup(Put(files, k, d), p) == Lookup(files, p)
  {
  }

  lemma ServeBeside(us: Uploads, h: HashFunction, g: World, id: nat)
    requires Keyed(us, g) && Possible(us, g, Advancing(id)) && g.tokens[id].Serving?
    ensures Beside(g, Move(us, h, g, id), TokenKey(g.tokens[id]))
  {
    var k := TokenKey(g.tokens[id]);
    PutBeside(g.files, k, Step(h, View(g.files, k), g.tokens[id].w).files);
    hide Step, Put, View, Lookup, UploadOf;
  }

  lemma MoveBeside(us: Uploads, h: HashFunction, g: World, id: nat)
    requires Keyed(us, g) && Possible(us, g, Advancing(id))
    ensures Beside(g, Move(us, h, g, id), TokenKey(g.tokens[id]))
  {
    if g.tokens[id].Serving? {
      ServeBeside(us, h, g, id);
      hide Move;
    } else {
      if g.tokens[id].ToClient? {
        ClientLocal(us, h, g, g.tokens[id].m);
      }
      hide Step, ClientHandle, Put, View, FilesOf, Project, UploadOf, ClientFiles;
    }
  }

  lemma LiftMove(us: Uploads, h: HashFunction, g: World, k: Key, id: nat)
    requires Keyed(us, g) && k in us && Enabled(UploadOf(us, k), Project(g, k), Advance(id))
    ensures Possible(us, g, Advancing(id))
    ensures var g' := Move(us, h, g, id);
      && Keyed(us, g') && Beside(g, g', k)
      && Project(g', k) == Apply(UploadOf(us, k), h, Project(g, k), Advance(id))
  {
    assert id in g.tokens && TokenKey(g.tokens[id]) == k && Project(g, k).tokens[id] == g.tokens[id];
    hide Step, ClientHandle, Put, View, FilesOf, Move, Moved, Project;
    OwnMove(us, h, g, id);
    MoveKeepsKeyed(us, h, g, id);
    MoveBeside(us, h, g, id);
  }

  lemma {:induction false} LiftRun(us: Uploads, h: HashFunction, g: World, k: Key, id: nat, acts: seq<Action>) returns (es: seq<Event>)
    requires Keyed(us, g) && k in us && Undisturbed(acts, id) && Runs(UploadOf(us, k), h, Project(g, k), acts)
    ensures Happens(us, h, g, es)
    ensures var g' := Eventually(us, h, g, es);
      && Keyed(us, g') && Beside(g, g', k) && Project(g', k) == After(UploadOf(us, k), h, Project(g, k), acts)
    decreases |acts|
  {
    if acts == [] {
      es := [];
    } else {
      LiftMove(us, h, g, k, id);
      hide Move, Project, Apply, Enabled, Possible;
      var g1 := Move(us, h, g, id);
      var rest := LiftRun(us, h, g1, k, id, acts[1..]);
      es := [Advancing(id)] + rest;
      assert es[1..] == rest;
      assert Happen(us, h, g, es[0]) == g1;
    }
  }

  /** The events can happen and lead from `g` to `g'`. */
  ghost predicate Leading(us: Uploads, h: HashFunction, g: World, es: seq<Event>, g': World) {
    g.offered <= us.Keys && Happens(us, h, g, es) && Eventually(us, h, g, es) == g'
  }

  lemma {:induction false} HappensAppend(us: Uploads, h: HashFunction, g: World, a: seq<Event>, g1: World, b: seq<Event>, g2: World)
    requires Leading(us, h, g, a, g1) && Leading(us, h, g1, b, g2) && Keyed(us, g)
    ensures Leading(us, h, g, a + b, g2)
    decreases |a|
  {
    if a == [] {
      assert a + b == b;
    } else {
      assert (a + b)[0] == a[0] && (a + b)[1..] == a[1..] + b;
      HappenKeepsKeyed(us, h, g, a[0]);
      hide Happen, Possible;
      HappensAppend(us, h, Happen(us, h, g, a[0]), a[1..], g1, b, g2);
    }
  }

  /** The offer that starts a session. */
  lemma OfferingMatches(us: Uploads, h: HashFunction, g: World, k: Key, id: nat)
    requires Keyed(us, g) && k in us && id !in g.tokens
    ensures var g1 := Happen(us, h, g, Offering(k, id));
      && Leading(us, h, g, [Offering(k, id)], g1) && Keyed(us, g1)
      && Matches(Project(g1, k), Offered(UploadOf(us, k), h, View(g.files, k)), id) && Accounted(Project(g1, k))
      && g1.files == g.files && g1.completed == g.completed && g1.tokens.Keys == g.tokens.Keys + {id}
      && (forall i :: i in g.tokens ==> g1.tokens[i] == g.tokens[i]) && TokenKey(g1.tokens[id]) == k
  {
    var t, g1 := UploadOf(us, k), Happen(us, h, g, Offering(k, id));
    HappenKeepsKeyed(us, h, g, Offering(k, id));
    OfferKey(h, t);
    assert Project(g1, k).tokens[id] == g1.tokens[id];
    assert [Offering(k, id)][1..] == [];
    assert Happens(us, h, g1, []) && Eventually(us, h, g1, []) == g1;
    hide View, BuildOffer, Local;
  }

  /** A complete session of upload `k`, started in any state in which its files are in order. */
  lemma SessionAmongOthers(us: Uploads, h: HashFunction, g: World, k: Key, id: nat) returns (es: seq<Event>, g': World)
    requires Keyed(us, g) && k in us && id !in g.tokens
    requires var t := UploadOf(us, k); Offerable(t) && NumChunks(|t.content|) <= INDEX_LIMIT && DiskOk(t, h, View(g.files, k))
    ensures Leading(us, h, g, es, g') && Keyed(us, g') && Beside(g, g', k)
    ensures k in g'.completed && Lookup(g'.files, TargetPath(k)) == Some(us[k])
    ensures View(g'.files, k).meta.Some? && forall i: nat :: i < NumChunks(|us[k]|) ==> Marked(View(g'.files, k).meta.value, i)
  {
    var t, d := UploadOf(us, k), View(g.files, k);
    var g1 := Happen(us, h, g, Offering(k, id));
    OfferingMatches(us, h, g, k, id);
    hide Happen, Possible, Next, DiskOk, Rounds, Talk, Lacking, Marked, Offered, Unmarked, NumChunks, Leading, Keyed, Lookup;
    var c, n := Offered(t, h, d), 2 * |Lacking(t, h, d)| + 2;
    ExactSession(t, h, d);
    var acts, s' := SessionRuns(t, h, Project(g1, k), c, id, n);
    assert Follows(t, h, Project(g1, k), acts, s') && Undisturbed(acts, id);
    hide Leads, Matches, Project;
    var more := LiftRun(us, h, g1, k, id, acts);
    g' := Eventually(us, h, g1, more);
    HappensAppend(us, h, g, [Offering(k, id)], g1, more, g');
    es := [Offering(k, id)] + more;
  }

  // ---------------------------------------------------------------- the disturbance

  /** One byte; its metadata file is 81 bytes, so either upload is a single chunk. */
  const BYTE: Bytes := [0]

  function EmptyMeta(h: HashFunction): Bytes {
    FreshMeta(1, h(BYTE))
  }

  /** Contents for which two uploads with colliding names collide. */
  function Colliding(keys: set<Key>, a: Key, b: Key, h: HashFunction): Uploads {
    map k | k in keys :: if k == a then BYTE else if k == b then EmptyMeta(h) else []
  }

  lemma CollidingSizes(h: HashFunction)
    ensures NumChunks(|BYTE|) == 1 && |EmptyMeta(h)| == 81 && NumChunks(|EmptyMeta(h)|) == 1
  {
  }

  /** The contents of upload `b` are just what the server takes for the metadata of an upload `a` not begun. */
  lemma TakenForMetadata(us: Uploads, h: HashFunction, g: World, a: Key, b: Key)
    requires a in us && us[a] == BYTE && a.uuid == b.uuid && b.name == MetaName(a.name)
    requires Lookup(g.files, TargetPath(b)) == Some(EmptyMeta(h)) && Lookup(g.files, TargetPath(a)) == None
    ensures DiskOk(UploadOf(us, a), h, View(g.files, a))
  {
    FreshIsEmpty(1, h(BYTE));
    assert EmptyMeta(h)[..HEADER_SIZE] == HeaderBytes(1, h(BYTE));
    CollidingSizes(h);
  }

  /** Neither file of upload `b` is the target of upload `a`. */
  lemma TargetUntouched(a: Key, b: Key)
    requires a.uuid == b.uuid && b.name == MetaName(a.name)
    ensures TargetPath(a) != TargetPath(b) && TargetPath(a) != MetaPath(b)
  {
    assert |b.name| == |a.name| + 6 && |MetaName(b.name)| == |b.name| + 6;
  }

  /** In this world an upload has been reported complete, but the server's file is not the client's. */
  ghost predicate Spoilt(us: Uploads, g: World, k: Key)
    requires k in us
  {
    k in g.completed && Lookup(g.files, TargetPath(k)) != Some(us[k])
  }

  /**
    Upload `b` under the metadata name of `a` is completed first; then upload `a` is completed, and
    marking its only chunk changes the file of `b`.
   */
  lemma CollisionSpoils(keys: set<Key>, h: HashFunction, a: Key, b: Key) returns (us: Uploads, es: seq<Event>)
    requires a in keys && b in keys && a.uuid == b.uuid && DotMeta(b.name, a.name)
    requires forall k :: k in keys ==> PlainName(k.name)
    ensures us.Keys == keys && (forall k :: k in us ==> Offerable(UploadOf(us, k)))
    ensures Happens(us, h, START, es) && Spoilt(us, Eventually(us, h, START, es), b)
  {
    MetaNameIs(b.name, a.name);
    us := Colliding(keys, a, b, h);
    TargetUntouched(a, b);
    CollidingSizes(h);
    assert us[a] == BYTE && us[b] == EmptyMeta(h);
    assert DiskOk(UploadOf(us, b), h, View(START.files, b));
    hide Happens, Eventually, DiskOk, Colliding;
    var es1, g1 := SessionAmongOthers(us, h, START, b, 0);
    assert 1 !in g1.tokens;
    TakenForMetadata(us, h, g1, a, b);
    var es2, g2 := SessionAmongOthers(us, h, g1, a, 1);
    HappensAppend(us, h, START, es1, g1, es2, g2);
    es := es1 + es2;
    var meta := View(g2.files, a).meta.value;
    assert Marked(meta, 0);
    FreshIsEmpty(1, h(BYTE));
    assert Lookup(g2.files, TargetPath(b)) == Some(meta);
  }

  // ---------------------------------------------------------------- the exact condition

  /** No name is the metadata name of another upload of the same client. */
  predicate CompatibleNames(keys: set<Key>) {
    forall a, b :: a in keys && b in keys && a != b && a.uuid == b.uuid ==> !DotMeta(a.name, b.name)
  }

  /** For all contents and all histories, what is reported complete is complete. */
  ghost predicate SafeNames(keys: set<Key>, h: HashFunction) {
    forall us: Uploads, es: seq<Event>, k: Key ::
      us.Keys == keys && (forall k :: k in us ==> Offerable(UploadOf(us, k))) && Happens(us, h, START, es) && k in us ==>
        !Spoilt(us, Eventually(us, h, START, es), k)
  }

  /** Uploads do not disturb each other exactly as long as no name is another's metadata name. */
  lemma SafeNamesIff(keys: set<Key>, h: HashFunction)
    requires forall k :: k in keys ==> PlainName(k.name)
    ensures SafeNames(keys, h) <==> CompatibleNames(keys)
  {
    if CompatibleNames(keys) {
      forall us: Uploads, es: seq<Event>, k: Key |
          us.Keys == keys && (forall k :: k in us ==> Offerable(UploadOf(us, k))) && Happens(us, h, START, es) && k in us
        ensures !Spoilt(us, Eventually(us, h, START, es), k)
      {
        EveryUploadSafe(us, h, es, k);
      }
    } else {
      var b, a :| a in keys && b in keys && a != b && a.uuid == b.uuid && DotMeta(b.name, a.name);
      MetaNameIs(b.name, a.name);
      var us, es := CollisionSpoils(keys, h, a, b);
      assert Spoilt(us, Eventually(us, h, START, es), b);
    }
  }
}
