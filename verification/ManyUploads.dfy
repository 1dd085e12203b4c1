/**
  The server with all its clients: one file system, one pool of workers, any number of uploads whose
  messages interleave in any way. Each upload sees a run of the single-upload system, so uploads do
  not disturb each other.
 */
module ManyUploads {
  import opened Machine
  import opened Codec
  import opened Storage
  import opened Handlers
  import opened Worker
  import opened Transfer

  /** What each client uploads under each name. */
  type Uploads = map<Key, Bytes>

  datatype World = World(files: map<Path, Bytes>, tokens: map<nat, Token>, offered: set<Key>, completed: set<Key>)

  datatype Event =
    | Offering(key: Key, id: nat)
    | Advancing(id: nat)
    | Losing(id: nat)
    | StoppingServer
    | StoppingCreation(id: nat, k: nat)
    | StoppingClient(uuid: Uuid)

  const START := World(map[], map[], {}, {})

  function TokenKey(k: Token): Key {
    match k
    case ToServer(m) => KeyOf(m)
    case Serving(w) => KeyOf(w.m)
    case ToClient(m) => KeyOf(m)
  }

  function UploadOf(us: Uploads, k: Key): Upload
    requires k in us
  {
    Upload(k, us[k])
  }

  /** The map of offered files of the client `uuid`. */
  function FilesOf(us: Uploads, h: HashFunction, offered: set<Key>, uuid: Uuid): map<Bytes, LocalFile>
    requires offered <= us.Keys
  {
    map k | k in offered && k.uuid == uuid :: k.name := Local(UploadOf(us, k), h)
  }

  predicate Possible(us: Uploads, g: World, e: Event) {
    match e
    case Offering(key, id) => key in us && id !in g.tokens
    case Advancing(id) => id in g.tokens && (g.tokens[id].Serving? ==> Wf(g.tokens[id].w))
    case Losing(id) => id in g.tokens && !g.tokens[id].Serving?
    case StoppingServer => true
    case StoppingCreation(id, k) =>
      && id in g.tokens && g.tokens[id].Serving? && g.tokens[id].w.Creating?
      && View(g.files, TokenKey(g.tokens[id])).target.None? && k <= g.tokens[id].w.size
    case StoppingClient(_) => true
  }

  function Move(us: Uploads, h: HashFunction, g: World, id: nat): World
    requires g.offered <= us.Keys && Possible(us, g, Advancing(id))
  {
    var key := TokenKey(g.tokens[id]);
    match g.tokens[id]
    case ToServer(m) => g.(tokens := g.tokens[id := Serving(Start(m))])
    case Serving(w) =>
      (match Step(h, View(g.files, key), w)
       case Continue(d, w') => g.(files := Put(g.files, key, d), tokens := g.tokens[id := Serving(w')])
       case Finish(d, reply) =>
         g.(files := Put(g.files, key, d),
            tokens := if reply.Some? then g.tokens[id := ToClient(reply.value)] else g.tokens - {id}))
    case ToClient(m) =>
      var r := ClientHandle(key.uuid, FilesOf(us, h, g.offered, key.uuid), m);
      var tokens := if r.reply.Ok? && r.reply.value.Some? then g.tokens[id := ToServer(r.reply.value.value)]
                    else g.tokens - {id};
      var left := set k | k in g.offered && k.uuid == key.uuid && k.name !in r.files;
      g.(tokens := tokens, offered := g.offered - left, completed := g.completed + left)
  }

  function Happen(us: Uploads, h: HashFunction, g: World, e: Event): World
    requires g.offered <= us.Keys && Possible(us, g, e)
  {
    match e
    case Offering(key, id) =>
      g.(tokens := g.tokens[id := ToServer(BuildOffer(1, key.uuid, Local(UploadOf(us, key), h)))],
         offered := g.offered + {key})
    case Advancing(id) => Move(us, h, g, id)
    case Losing(id) => g.(tokens := g.tokens - {id})
    case StoppingServer => g.(tokens := Queued(g.tokens))
    case StoppingCreation(id, k) =>
      var key := TokenKey(g.tokens[id]);
      g.(files := Put(g.files, key, View(g.files, key).(target := Some(Zeros(k)))), tokens := Queued(g.tokens))
    case StoppingClient(uuid) => g.(offered := set k | k in g.offered && k.uuid != uuid)
  }

  predicate Happens(us: Uploads, h: HashFunction, g: World, es: seq<Event>)
    requires g.offered <= us.Keys
    decreases |es|
  {
    es == [] || (Possible(us, g, es[0]) && Happens(us, h, Happen(us, h, g, es[0]), es[1..]))
  }

  function Eventually(us: Uploads, h: HashFunction, g: World, es: seq<Event>): World
    requires g.offered <= us.Keys && Happens(us, h, g, es)
    decreases |es|
  {
    if es == [] then g else Eventually(us, h, Happen(us, h, g, es[0]), es[1..])
  }

  // ---------------------------------------------------------------- paths of different uploads

  predicate Apart(a: Key, b: Key) {
    {TargetPath(a), MetaPath(a)} !! {TargetPath(b), MetaPath(b)}
  }

  lemma MetaNameInjective(a: Bytes, b: Bytes)
    requires MetaName(a) == MetaName(b)
    ensures a == b
  {
    assert a == MetaName(a)[1..|MetaName(a)| - 5];
    assert b == MetaName(b)[1..|MetaName(b)| - 5];
  }

  /** Two uploads use different files exactly when neither name is the other's metadata name. */
  lemma ApartIff(a: Key, b: Key)
    requires a != b
    ensures Apart(a, b) <==> a.uuid != b.uuid || (!DotMeta(a.name, b.name) && !DotMeta(b.name, a.name))
  {
    MetaNameIs(a.name, b.name);
    MetaNameIs(b.name, a.name);
    hide DotMeta;
    if MetaName(a.name) == MetaName(b.name) {
      MetaNameInjective(a.name, b.name);
    }
  }

  predicate Compatible(us: Uploads) {
    forall a, b :: a in us && b in us && a != b && a.uuid == b.uuid ==> !DotMeta(a.name, b.name)
  }

  lemma ViewsApart(files: map<Path, Bytes>, a: Key, b: Key, d: Files)
    requires Apart(a, b)
    ensures View(Put(files, a, d), b) == View(files, b)
  {
  }

  // ---------------------------------------------------------------- projection to one upload

  /** The tokens of one upload. */
  function Mine(tokens: map<nat, Token>, k: Key): map<nat, Token> {
    map i | i in tokens && TokenKey(tokens[i]) == k :: tokens[i]
  }

  function Project(g: World, k: Key): State {
    State(View(g.files, k), Mine(g.tokens, k), k in g.offered, k in g.completed)
  }

  /** What an event of the whole server is for one upload: one action of it, or nothing. */
  function ProjectEvent(g: World, e: Event, k: Key): seq<Action> {
    match e
    case Offering(key, id) => if key == k then [OfferFile(id)] else []
    case Advancing(id) => if id in g.tokens && TokenKey(g.tokens[id]) == k then [Action.Advance(id)] else []
    case Losing(id) => if id in g.tokens && TokenKey(g.tokens[id]) == k then [Lose(id)] else []
    case StoppingServer => [StopServer]
    case StoppingCreation(id, n) =>
      if id in g.tokens && TokenKey(g.tokens[id]) == k then [StopCreating(id, n)] else [StopServer]
    case StoppingClient(uuid) => if k.uuid == uuid then [StopClient] else []
  }

  /** Every offer and every message belongs to one of the uploads. */
  predicate Keyed(us: Uploads, g: World) {
    g.offered <= us.Keys && forall id :: id in g.tokens ==> TokenKey(g.tokens[id]) in us
  }

  ghost predicate WorldOk(us: Uploads, g: World) {
    Compatible(us) && Keyed(us, g)
  }

  lemma MineUpdated(tokens: map<nat, Token>, id: nat, v: Token, k: Key)
    ensures TokenKey(v) == k ==> Mine(tokens[id := v], k) == Mine(tokens, k)[id := v]
    ensures TokenKey(v) != k && (id in tokens ==> TokenKey(tokens[id]) != k) ==> Mine(tokens[id := v], k) == Mine(tokens, k)
    ensures Mine(tokens - {id}, k) == Mine(tokens, k) - {id}
    ensures id in tokens && TokenKey(tokens[id]) != k ==> Mine(tokens - {id}, k) == Mine(tokens, k)
    ensures Mine(Queued(tokens), k) == Queued(Mine(tokens, k))
  {
  }

  lemma InFiles(us: Uploads, h: HashFunction, offered: set<Key>, k: Key)
    requires offered <= us.Keys
    ensures k.name in FilesOf(us, h, offered, k.uuid) <==> k in offered
  {
    var files := FilesOf(us, h, offered, k.uuid);
    if k.name in files {
      var k' :| k' in offered && k'.uuid == k.uuid && k'.name == k.name;
      assert k' == k;
    }
  }

  /** The client's reaction to a message depends only on the file the message names. */
  lemma ClientLocal(us: Uploads, h: HashFunction, g: World, m: Message)
    requires g.offered <= us.Keys && KeyOf(m) in us
    ensures var k := KeyOf(m);
      var all := ClientHandle(k.uuid, FilesOf(us, h, g.offered, k.uuid), m);
      var one := ClientHandle(k.uuid, ClientFiles(UploadOf(us, k), h, Project(g, k)), m);
      && all.reply == one.reply
      && (k.name in all.files <==> k.name in one.files)
      && (all.reply.Ok? && all.reply.value.Some? ==> KeyOf(all.reply.value.value) == k)
  {
    InFiles(us, h, g.offered, KeyOf(m));
  }

  /** The files that leave the client's map because of a message: at most the one it names. */
  lemma ClientLeaves(us: Uploads, h: HashFunction, g: World, m: Message)
    requires g.offered <= us.Keys
    ensures var k := KeyOf(m);
      var r := ClientHandle(k.uuid, FilesOf(us, h, g.offered, k.uuid), m);
      (set k' | k' in g.offered && k'.uuid == k.uuid && k'.name !in r.files)
        == if k in g.offered && k.name !in r.files then {k} else {}
  {
    var k := KeyOf(m);
    OthersStayOffered(k.uuid, FilesOf(us, h, g.offered, k.uuid), m);
    hide ClientHandle, FilesOf;
    forall k' | k' in g.offered && k'.uuid == k.uuid
      ensures k'.name in FilesOf(us, h, g.offered, k.uuid)
    {
      InFiles(us, h, g.offered, k');
    }
  }

  lemma OwnMove(us: Uploads, h: HashFunction, g: World, id: nat)
    requires Keyed(us, g) && Possible(us, g, Advancing(id))
    ensures var k := TokenKey(g.tokens[id]);
      var t := UploadOf(us, k);
      Enabled(t, Project(g, k), Advance(id)) && Moved(t, h, Project(g, k), id) == Project(Move(us, h, g, id), k)
  {
    var k, tok := TokenKey(g.tokens[id]), g.tokens[id];
    var g' := Move(us, h, g, id);
    assert id in Mine(g.tokens, k) && Mine(g.tokens, k)[id] == tok;
    hide Step, ClientHandle, View, Put, Mine, FilesOf, ClientFiles;
    match tok {
      case ToServer(m) => MineUpdated(g.tokens, id, Serving(Start(m)), k);
      case Serving(w) =>
        match Step(h, View(g.files, k), w) {
          case Continue(d, w') =>
            PutView(g.files, k, d);
            MineUpdated(g.tokens, id, Serving(w'), k);
          case Finish(d, reply) =>
            PutView(g.files, k, d);
            MineUpdated(g.tokens, id, if reply.Some? then ToClient(reply.value) else tok, k);
        }
      case ToClient(m) =>
        ClientLocal(us, h, g, m);
        ClientLeaves(us, h, g, m);
        var r := ClientHandle(k.uuid, FilesOf(us, h, g.offered, k.uuid), m).reply;
        MineUpdated(g.tokens, id, if r.Ok? && r.value.Some? then ToServer(r.value.value) else tok, k);
    }
  }

  lemma OthersServe(us: Uploads, h: HashFunction, g: World, id: nat, k: Key)
    requires WorldOk(us, g) && Possible(us, g, Advancing(id)) && g.tokens[id].Serving?
    requires TokenKey(g.tokens[id]) != k && Apart(TokenKey(g.tokens[id]), k)
    ensures Project(Move(us, h, g, id), k) == Project(g, k)
  {
    hide View, Put, Mine, Step, Apart, WorldOk;
    var key, tok := TokenKey(g.tokens[id]), g.tokens[id];
    var r := Step(h, View(g.files, key), tok.w);
    ViewsApart(g.files, key, k, r.files);
    var next := if r.Continue? then Serving(r.next) else if r.reply.Some? then ToClient(r.reply.value) else tok;
    assert TokenKey(next) == key;
    MineUpdated(g.tokens, id, next, k);
  }

  lemma OthersReply(us: Uploads, h: HashFunction, g: World, id: nat, k: Key)
    requires WorldOk(us, g) && Possible(us, g, Advancing(id)) && g.tokens[id].ToClient?
    requires TokenKey(g.tokens[id]) != k
    ensures Project(Move(us, h, g, id), k) == Project(g, k)
  {
    hide View, Mine, ClientHandle, FilesOf, ClientFiles, Compatible;
    var key, tok := TokenKey(g.tokens[id]), g.tokens[id];
    ClientLocal(us, h, g, tok.m);
    ClientLeaves(us, h, g, tok.m);
    var r := ClientHandle(key.uuid, FilesOf(us, h, g.offered, key.uuid), tok.m).reply;
    var next := if r.Ok? && r.value.Some? then ToServer(r.value.value) else tok;
    assert TokenKey(next) == key;
    MineUpdated(g.tokens, id, next, k);
  }

  lemma OthersMove(us: Uploads, h: HashFunction, g: World, id: nat, k: Key)
    requires WorldOk(us, g) && Possible(us, g, Advancing(id)) && k in us && TokenKey(g.tokens[id]) != k
    ensures Project(Move(us, h, g, id), k) == Project(g, k)
  {
    match g.tokens[id] {
      case ToServer(m) =>
        hide View, Mine, Compatible;
        MineUpdated(g.tokens, id, Serving(Start(m)), k);
      case Serving(w) =>
        ApartIff(TokenKey(g.tokens[id]), k);
        OthersServe(us, h, g, id, k);
      case ToClient(m) => OthersReply(us, h, g, id, k);
    }
  }

  lemma MoveKeepsKeyed(us: Uploads, h: HashFunction, g: World, id: nat)
    requires Keyed(us, g) && Possible(us, g, Advancing(id))
    ensures Keyed(us, Move(us, h, g, id))
  {
    var tok := g.tokens[id];
    match tok {
      case ToServer(_) =>
      case Serving(w) =>
        hide Put, View;
      case ToClient(m) =>
        ClientLocal(us, h, g, m);
        hide ClientHandle;
    }
  }

  lemma HappenKeepsKeyed(us: Uploads, h: HashFunction, g: World, e: Event)
    requires Keyed(us, g) && Possible(us, g, e)
    ensures Keyed(us, Happen(us, h, g, e))
  {
    hide Move, Put;
    if e.Advancing? {
      MoveKeepsKeyed(us, h, g, e.id);
    }
  }

  lemma OfferKey(h: HashFunction, t: Upload)
    ensures KeyOf(BuildOffer(1, t.key.uuid, Local(t, h))) == t.key
  {
  }

  /** Every event of the server is, for each upload, an action of that upload or invisible to it. */
  lemma ProjectsStep(us: Uploads, h: HashFunction, g: World, e: Event, k: Key)
    requires WorldOk(us, g) && Possible(us, g, e) && k in us
    ensures Follows(UploadOf(us, k), h, Project(g, k), ProjectEvent(g, e, k), Project(Happen(us, h, g, e), k))
  {
    hide Moved, Move, View, Put, Step, ClientHandle, Local, BuildOffer, Zeros;
    var t, s, acts := UploadOf(us, k), Project(g, k), ProjectEvent(g, e, k);
    match e {
      case Offering(key, id) =>
        MineUpdated(g.tokens, id, ToServer(BuildOffer(1, key.uuid, Local(UploadOf(us, key), h))), k);
        OfferKey(h, UploadOf(us, key));
      case Advancing(id) =>
        if TokenKey(g.tokens[id]) == k {
          OwnMove(us, h, g, id);
        } else {
          OthersMove(us, h, g, id, k);
        }
      case Losing(id) =>
        MineUpdated(g.tokens, id, g.tokens[id], k);
      case StoppingServer =>
        MineUpdated(g.tokens, 0, ToClient(Message(0, k.uuid, k.name, Complete)), k);
      case StoppingCreation(id, n) =>
        MineUpdated(g.tokens, id, g.tokens[id], k);
        var key := TokenKey(g.tokens[id]);
        var d := View(g.files, key).(target := Some(Zeros(n)));
        PutView(g.files, key, d);
        if key != k {
          ApartIff(key, k);
          ViewsApart(g.files, key, k, d);
        }
      case StoppingClient(uuid) =>
    }
    if acts != [] {
      assert acts == [acts[0]];
      One(t, h, s, acts[0]);
    }
  }

  /** The actions of one upload within a history of the whole server. */
  function ProjectHistory(us: Uploads, h: HashFunction, g: World, es: seq<Event>, k: Key): seq<Action>
    requires g.offered <= us.Keys && Happens(us, h, g, es)
    decreases |es|
  {
    if es == [] then []
    else ProjectEvent(g, es[0], k) + ProjectHistory(us, h, Happen(us, h, g, es[0]), es[1..], k)
  }

  /** Any interleaving of all uploads is, seen from one upload, a run of that upload alone. */
  lemma {:induction false} ProjectsHistory(us: Uploads, h: HashFunction, g: World, es: seq<Event>, k: Key)
    requires WorldOk(us, g) && Happens(us, h, g, es) && k in us
    ensures Follows(UploadOf(us, k), h, Project(g, k), ProjectHistory(us, h, g, es, k),
                    Project(Eventually(us, h, g, es), k))
    decreases |es|
  {
    hide Possible, Happen, Apply, Enabled, Project, ProjectEvent, Compatible;
    if es != [] {
      assert Possible(us, g, es[0]);
      var t, g' := UploadOf(us, k), Happen(us, h, g, es[0]);
      ProjectsStep(us, h, g, es[0], k);
      HappenKeepsKeyed(us, h, g, es[0]);
      ProjectsHistory(us, h, g', es[1..], k);
      RunsAppend(t, h, Project(g, k), ProjectEvent(g, es[0], k), ProjectHistory(us, h, g', es[1..], k));
    }
  }

  /**
    So what holds of one upload holds of each of many: when the server has reported an upload complete,
    or the client believes so, the server's file under that client and name equals the client's.
   */
  lemma EveryUploadSafe(us: Uploads, h: HashFunction, es: seq<Event>, k: Key)
    requires Compatible(us) && k in us && Offerable(UploadOf(us, k)) && Happens(us, h, START, es)
    ensures var g := Eventually(us, h, START, es);
      && (k in g.completed ==> Lookup(g.files, TargetPath(k)) == Some(us[k]))
      && (forall id :: id in g.tokens && g.tokens[id].ToClient? && KeyOf(g.tokens[id].m) == k && g.tokens[id].m.body.Complete? ==>
            Lookup(g.files, TargetPath(k)) == Some(us[k]))
  {
    ProjectsHistory(us, h, START, es, k);
    var g := Eventually(us, h, START, es);
    var acts := ProjectHistory(us, h, START, es, k);
    assert Mine(map[], k) == map[] && Project(START, k) == INIT;
    MarkedMeansReceived(UploadOf(us, k), h, acts);
    var s := Project(g, k);
    forall id | id in g.tokens && g.tokens[id].ToClient? && KeyOf(g.tokens[id].m) == k && g.tokens[id].m.body.Complete?
      ensures Lookup(g.files, TargetPath(k)) == Some(us[k])
    {
      assert s.tokens[id] == g.tokens[id];
    }
  }
}
