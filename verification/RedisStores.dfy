/**
 The session, conversation and agent stores and the cache, all on one Redis. Together they behave
 like one map with expiry for each kind of entry: what one store does under a name is seen under
 that name only.
 */
module RedisStores {
  import opened Options
  import opened RedisKeys
  import Text

  // ---------------------------------------------------------------- Redis

  datatype Value = Fields(fields: map<string, string>) | Line(text: string)

  /** A value with the moment from which it is gone, if it expires. */
  datatype Cell = Cell(value: Value, deadline: Option<nat>)

  datatype Server = Server(cells: map<string, Cell>, now: nat)

  predicate Alive(cell: Cell, now: nat) {
    cell.deadline.Some? ==> now < cell.deadline.value
  }

  function Lookup(s: Server, key: string): Option<Cell> {
    if key in s.cells && Alive(s.cells[key], s.now) then Some(s.cells[key]) else None
  }

  function Del(s: Server, key: string): Server {
    s.(cells := s.cells - {key})
  }

  /** Adds fields to the hash under a key, or makes one; a text under the key is an error and stays. */
  function HSet(s: Server, key: string, fields: map<string, string>): Server {
    match Lookup(s, key)
    case Some(Cell(Fields(before), deadline)) => s.(cells := s.cells[key := Cell(Fields(before + fields), deadline)])
    case Some(Cell(Line(_), _)) => s
    case None => s.(cells := s.cells[key := Cell(Fields(fields), None)])
  }

  function Expire(s: Server, key: string, ttl: nat): Server {
    match Lookup(s, key)
    case Some(cell) => s.(cells := s.cells[key := cell.(deadline := Some(s.now + ttl))])
    case None => s
  }

  function SetText(s: Server, key: string, text: string, ttl: nat): Server {
    s.(cells := s.cells[key := Cell(Line(text), Some(s.now + ttl))])
  }

  // ---------------------------------------------------------------- the calls of the stores

  datatype Call =
    | Save(hash: HashName, data: map<string, string>)
    | Get(hash: HashName)
    | Touch(hash: HashName)
    | Put(space: string, identifier: string, text: string, ttl: Option<int>)
    | Fetch(space: string, identifier: string)
    | Has(space: string, identifier: string)
    | Remove(name: Name)

  datatype Reply =
    | BadName(error: ComponentError)
    | NoData
    | BadTtl
    | WrongType
    | Done
    | Data(data: Option<map<string, string>>)
    | TextReply(text: Option<string>)
    | Flag(flag: bool)

  /** The time to live of each kind of entry; the stores accept positive ones only. */
  datatype Ttls = Ttls(session: nat, conversation: nat, agent: nat, cache: nat)

  predicate Positive(t: Ttls) {
    t.session > 0 && t.conversation > 0 && t.agent > 0 && t.cache > 0
  }

  function TtlOf(t: Ttls, h: HashName): nat {
    match h
    case Session(_) => t.session
    case Conversation(_) => t.conversation
    case Agent(_, _) => t.agent
  }

  function NameOf(c: Call): Name {
    match c
    case Save(h, _) => Hashed(h)
    case Get(h) => Hashed(h)
    case Touch(h) => Hashed(h)
    case Put(space, identifier, _, _) => Cached(space, identifier)
    case Fetch(space, identifier) => Cached(space, identifier)
    case Has(space, identifier) => Cached(space, identifier)
    case Remove(n) => n
  }

  /** What the stores reject whatever the name. */
  function Rejection(t: Ttls, c: Call): Option<Reply> {
    match c
    case Save(_, data) => if data == map[] then Some(NoData) else None
    case Put(_, _, _, ttl) => if ttl.Some? && ttl.value <= 0 then Some(BadTtl) else None
    case _ => None
  }

  /** The conversation and agent stores look at the name first; the session store and the cache look at it last. */
  predicate ChecksNameFirst(c: Call) {
    c.Save? && !c.hash.Session?
  }

  /** What is wrong with a call, if anything is. */
  function Complaint(b: KeyBuilder, t: Ttls, c: Call): Option<Reply> {
    var name := match Key(b, NameOf(c)) case Bad(e) => Some(BadName(e)) case Fine(_) => None;
    if ChecksNameFirst(c) then if name.Some? then name else Rejection(t, c)
    else if Rejection(t, c).Some? then Rejection(t, c) else name
  }

  /** The three commands of a save, in one transaction. */
  function SaveFields(s: Server, key: string, data: map<string, string>, ttl: nat): Server {
    Expire(HSet(Del(s, key), key, data), key, ttl)
  }

  /** A call that reached Redis, under its key. */
  function ServeKey(s: Server, t: Ttls, key: string, c: Call): (Server, Reply)
    requires Rejection(t, c).None?
  {
    match c
    case Save(h, data) => (SaveFields(s, key, data, TtlOf(t, h)), Done)
    case Get(_) =>
      (match Lookup(s, key)
       case None => (s, Data(None))
       case Some(Cell(Fields(f), _)) => (s, Data(if f == map[] then None else Some(f)))
       case Some(Cell(Line(_), _)) => (s, WrongType))
    case Touch(h) => (Expire(s, key, TtlOf(t, h)), Flag(Lookup(s, key).Some?))
    case Put(_, _, text, ttl) => (SetText(s, key, text, if ttl.Some? then ttl.value else t.cache), Done)
    case Fetch(_, _) =>
      (match Lookup(s, key)
       case None => (s, TextReply(None))
       case Some(Cell(Line(x), _)) => (s, TextReply(Some(x)))
       case Some(Cell(Fields(_), _)) => (s, WrongType))
    case Has(_, _) => (s, Flag(Lookup(s, key).Some?))
    case Remove(_) => (Del(s, key), Flag(Lookup(s, key).Some?))
  }

  function Serve(s: Server, b: KeyBuilder, t: Ttls, c: Call): (Server, Reply) {
    if Complaint(b, t, c).Some? then (s, Complaint(b, t, c).value) else ServeKey(s, t, Key(b, NameOf(c)).value, c)
  }

  // ---------------------------------------------------------------- one map with expiry for each name

  /** A name of one builder, with stripped components. */
  datatype FullName = FullName(builder: KeyBuilder, name: Name)

  /** What a name holds: fields or text, and until when. */
  datatype Entry = Entry(value: Value, deadline: nat)

  datatype Apart = Apart(entries: map<FullName, Entry>, now: nat)

  function Find(a: Apart, n: FullName): Option<Value> {
    if n in a.entries && a.now < a.entries[n].deadline then Some(a.entries[n].value) else None
  }

  /** What a call means for the entry of its own name; every other name is out of sight. */
  function ServeEntry(a: Apart, n: FullName, t: Ttls, c: Call): (Apart, Reply)
    requires Rejection(t, c).None?
  {
    var found := Find(a, n);
    match c
    case Save(h, data) => (a.(entries := a.entries[n := Entry(Fields(data), a.now + TtlOf(t, h))]), Done)
    case Get(_) => (a, Data(if found.Some? && found.value.Fields? then Some(found.value.fields) else None))
    case Touch(h) =>
      if found.Some? then (a.(entries := a.entries[n := Entry(found.value, a.now + TtlOf(t, h))]), Flag(true))
      else (a, Flag(false))
    case Put(_, _, text, ttl) =>
      var seconds := if ttl.Some? then ttl.value else t.cache;
      (a.(entries := a.entries[n := Entry(Line(text), a.now + seconds)]), Done)
    case Fetch(_, _) => (a, TextReply(if found.Some? && found.value.Line? then Some(found.value.text) else None))
    case Has(_, _) => (a, Flag(found.Some?))
    case Remove(_) => (a.(entries := a.entries - {n}), Flag(found.Some?))
  }

  function ServeApart(a: Apart, b: KeyBuilder, t: Ttls, c: Call): (Apart, Reply) {
    if Complaint(b, t, c).Some? then (a, Complaint(b, t, c).value)
    else ServeEntry(a, FullName(b, Stripped(NameOf(c))), t, c)
  }

  // ---------------------------------------------------------------- the two agree

  ghost predicate Plainly(f: FullName) {
    PlainBuilder(f.builder) && Stripped(f.name) == f.name && PlainName(f.name)
  }

  function KeyOf(f: FullName): string {
    if Key(f.builder, f.name).Fine? then Key(f.builder, f.name).value else ""
  }

  /** Hash names hold fields, not none of them; cache names hold text. */
  predicate Kept(n: Name, v: Value) {
    if n.Hashed? then v.Fields? && v.fields != map[] else v.Line?
  }

  /** Redis holds under the key of each name what the name holds on its own. */
  ghost predicate Same(s: Server, a: Apart) {
    && s.now == a.now
    && (forall f :: Plainly(f) ==> (KeyOf(f) in s.cells <==> f in a.entries))
    && (forall f <- a.entries :: Plainly(f) && Kept(f.name, a.entries[f].value)
          && KeyOf(f) in s.cells && s.cells[KeyOf(f)] == Cell(a.entries[f].value, Some(a.entries[f].deadline)))
  }

  lemma KeysOfNames(f: FullName, g: FullName)
    requires Plainly(f) && Plainly(g)
    ensures KeyOf(f) == KeyOf(g) <==> f == g
  {
    KeyReadsBack(f.builder, f.name);
    KeyReadsBack(g.builder, g.name);
    KeysAreInjective(f.builder, f.name, g.builder, g.name);
  }

  /** Stripping twice is stripping once. */
  lemma StrippedTwice(n: Name)
    requires PlainName(Stripped(n))
    ensures Stripped(Stripped(n)) == Stripped(n)
  {
    match n {
      case Hashed(Session(id)) => StripTwice(id);
      case Hashed(Conversation(id)) => StripTwice(id);
      case Hashed(Agent(agent, session)) =>
        StripTwice(agent);
        StripTwice(session);
      case Cached(space, identifier) =>
        StripTwice(space);
        StripTwice(identifier);
    }
  }

  lemma StripTwice(s: string)
    ensures Text.Strip(Text.Strip(s)) == Text.Strip(s)
  {
    Text.StripFixed(Text.Strip(s));
  }

  /** The name a call uses, when its key exists. */
  lemma UsedName(b: KeyBuilder, n: Name)
    requires PlainBuilder(b) && Key(b, n).Fine?
    ensures Plainly(FullName(b, Stripped(n))) && KeyOf(FullName(b, Stripped(n))) == Key(b, n).value
  {
    KeyReadsBack(b, n);
    StrippedTwice(n);
    KeyReadsBack(b, Stripped(n));
    KeysAreInjective(b, n, b, Stripped(n));
  }

  /** A save leaves the given fields and no others, whatever was under the key before. */
  lemma SaveReplaces(s: Server, key: string, data: map<string, string>, ttl: nat)
    requires ttl > 0
    ensures SaveFields(s, key, data, ttl) == s.(cells := s.cells[key := Cell(Fields(data), Some(s.now + ttl))])
  {
    var gone := Del(s, key);
    var filled := HSet(gone, key, data);
    assert filled.cells == gone.cells[key := Cell(Fields(data), None)];
    assert SaveFields(s, key, data, ttl).cells == s.cells[key := Cell(Fields(data), Some(s.now + ttl))];
  }

  lemma LookupAgrees(s: Server, a: Apart, f: FullName)
    requires Same(s, a) && Plainly(f)
    ensures Lookup(s, KeyOf(f)).Some? <==> Find(a, f).Some?
    ensures Find(a, f).Some? ==>
      Kept(f.name, Find(a, f).value) && Lookup(s, KeyOf(f)) == Some(Cell(Find(a, f).value, Some(a.entries[f].deadline)))
  {
  }

  lemma SameAfterSet(s: Server, a: Apart, f: FullName, v: Value, deadline: nat)
    requires Same(s, a) && Plainly(f) && Kept(f.name, v)
    ensures Same(s.(cells := s.cells[KeyOf(f) := Cell(v, Some(deadline))]),
      a.(entries := a.entries[f := Entry(v, deadline)]))
  {
    OneKeyEach(f);
  }

  /** No other name has the key of this one. */
  lemma OneKeyEach(f: FullName)
    requires Plainly(f)
    ensures forall g :: Plainly(g) ==> (KeyOf(f) == KeyOf(g) <==> f == g)
  {
    forall g | Plainly(g)
      ensures KeyOf(f) == KeyOf(g) <==> f == g
    {
      KeysOfNames(f, g);
    }
  }

  lemma SameAfterRemove(s: Server, a: Apart, f: FullName)
    requires Same(s, a) && Plainly(f)
    ensures Same(Del(s, KeyOf(f)), a.(entries := a.entries - {f}))
  {
    OneKeyEach(f);
  }

  predicate ReadsOnly(c: Call) {
    c.Get? || c.Fetch? || c.Has?
  }

  /** A read under the key of a name finds what the name's own entry holds. */
  lemma ReadUnderAKey(s: Server, a: Apart, f: FullName, t: Ttls, c: Call)
    requires Same(s, a) && Plainly(f) && ReadsOnly(c) && f.name.Hashed? == NameOf(c).Hashed?
    ensures ServeKey(s, t, KeyOf(f), c).1 == ServeEntry(a, f, t, c).1
    ensures ServeKey(s, t, KeyOf(f), c).0 == s && ServeEntry(a, f, t, c).0 == a
  {
    LookupAgrees(s, a, f);
  }

  lemma SavedUnderAKey(s: Server, a: Apart, f: FullName, data: map<string, string>, ttl: nat)
    requires Same(s, a) && Plainly(f) && f.name.Hashed? && data != map[] && ttl > 0
    ensures Same(SaveFields(s, KeyOf(f), data, ttl), a.(entries := a.entries[f := Entry(Fields(data), a.now + ttl)]))
  {
    SaveReplaces(s, KeyOf(f), data, ttl);
    SameAfterSet(s, a, f, Fields(data), s.now + ttl);
    assert s.now == a.now;
  }

  lemma PutUnderAKey(s: Server, a: Apart, f: FullName, text: string, ttl: nat)
    requires Same(s, a) && Plainly(f) && !f.name.Hashed?
    ensures Same(SetText(s, KeyOf(f), text, ttl), a.(entries := a.entries[f := Entry(Line(text), a.now + ttl)]))
  {
    SameAfterSet(s, a, f, Line(text), s.now + ttl);
  }

  /** A write under the key of a name does what it does to the name's own entry. */
  lemma WrittenUnderAKey(s: Server, a: Apart, f: FullName, t: Ttls, c: Call)
    requires Same(s, a) && Plainly(f) && Positive(t) && Rejection(t, c).None? && f.name.Hashed? == NameOf(c).Hashed?
    requires !ReadsOnly(c) && !c.Touch?
    ensures
      var (s', r) := ServeKey(s, t, KeyOf(f), c);
      var (a', q) := ServeEntry(a, f, t, c);
      r == q && Same(s', a')
  {
    match c {
      case Save(h, data) => SavedUnderAKey(s, a, f, data, TtlOf(t, h));
      case Put(_, _, text, ttl) => PutUnderAKey(s, a, f, text, if ttl.Some? then ttl.value else t.cache);
      case Remove(_) =>
        LookupAgrees(s, a, f);
        SameAfterRemove(s, a, f);
    }
  }

  /** A name's entry with a new deadline, if it is still there. */
  function Refreshed(a: Apart, f: FullName, ttl: nat): Apart {
    if Find(a, f).Some? then a.(entries := a.entries[f := Entry(Find(a, f).value, a.now + ttl)]) else a
  }

  lemma ExpireRefreshes(s: Server, a: Apart, f: FullName, ttl: nat)
    requires Same(s, a) && Plainly(f)
    ensures Same(Expire(s, KeyOf(f), ttl), Refreshed(a, f, ttl))
  {
    LookupAgrees(s, a, f);
    if Find(a, f).Some? {
      var v := Find(a, f).value;
      ExpireSets(s, KeyOf(f), ttl, v, a.entries[f].deadline);
      SameAfterSet(s, a, f, v, s.now + ttl);
    }
  }

  lemma TouchedAlike(s: Server, a: Apart, key: string, f: FullName, t: Ttls, h: HashName)
    requires Lookup(s, key).Some? <==> Find(a, f).Some?
    ensures ServeKey(s, t, key, Touch(h)) == (Expire(s, key, TtlOf(t, h)), Flag(Find(a, f).Some?))
    ensures ServeEntry(a, f, t, Touch(h)) == (Refreshed(a, f, TtlOf(t, h)), Flag(Find(a, f).Some?))
  {
  }

  lemma ExpireSets(s: Server, key: string, ttl: nat, v: Value, deadline: nat)
    requires Lookup(s, key) == Some(Cell(v, Some(deadline)))
    ensures Expire(s, key, ttl) == s.(cells := s.cells[key := Cell(v, Some(s.now + ttl))])
  {
  }

  /** One call gives the same reply on the shared Redis and on the separate entries, and keeps them the same. */
  lemma ServedAlike(s: Server, a: Apart, b: KeyBuilder, t: Ttls, c: Call)
    requires Same(s, a) && PlainBuilder(b) && Positive(t)
    ensures
      var (s', r) := Serve(s, b, t, c);
      var (a', q) := ServeApart(a, b, t, c);
      r == q && r != WrongType && Same(s', a')
  {
    if Complaint(b, t, c).None? {
      var f := FullName(b, Stripped(NameOf(c)));
      UsedName(b, NameOf(c));
      assert f.name.Hashed? == NameOf(c).Hashed?;
      if ReadsOnly(c) {
        ReadUnderAKey(s, a, f, t, c);
      } else if c.Touch? {
        LookupAgrees(s, a, f);
        TouchedAlike(s, a, KeyOf(f), f, t, c.hash);
        ExpireRefreshes(s, a, f, TtlOf(t, c.hash));
      } else {
        WrittenUnderAKey(s, a, f, t, c);
      }
    }
  }

  // ---------------------------------------------------------------- runs

  /** A call of some builder's stores, or time going by. */
  datatype Step = CallStep(builder: KeyBuilder, ttls: Ttls, call: Call) | Wait(seconds: nat)

  function ServeAll(s: Server, steps: seq<Step>): (Server, seq<Reply>)
    decreases |steps|
  {
    if steps == [] then (s, [])
    else
      match steps[0]
      case Wait(n) => ServeAll(s.(now := s.now + n), steps[1..])
      case CallStep(b, t, c) =>
        var (next, r) := Serve(s, b, t, c);
        var (last, replies) := ServeAll(next, steps[1..]);
        (last, [r] + replies)
  }

  function ServeAllApart(a: Apart, steps: seq<Step>): (Apart, seq<Reply>)
    decreases |steps|
  {
    if steps == [] then (a, [])
    else
      match steps[0]
      case Wait(n) => ServeAllApart(a.(now := a.now + n), steps[1..])
      case CallStep(b, t, c) =>
        var (next, r) := ServeApart(a, b, t, c);
        var (last, replies) := ServeAllApart(next, steps[1..]);
        (last, [r] + replies)
  }

  /**
   Any run of the four stores, of any number of environments, on one Redis gives reply for reply what
   separate entries with expiry give. In particular no store ever finds a value of the wrong type.
   */
  lemma {:induction false} StoresAreSeparate(s: Server, a: Apart, steps: seq<Step>)
    requires Same(s, a)
    requires forall step <- steps :: step.CallStep? ==> PlainBuilder(step.builder) && Positive(step.ttls)
    ensures ServeAll(s, steps).1 == ServeAllApart(a, steps).1
    ensures Same(ServeAll(s, steps).0, ServeAllApart(a, steps).0)
    ensures WrongType !in ServeAll(s, steps).1
    decreases |steps|
  {
    if steps != [] {
      assert steps[0] in steps;
      match steps[0] {
        case Wait(n) =>
          StoresAreSeparate(s.(now := s.now + n), a.(now := a.now + n), steps[1..]);
        case CallStep(b, t, c) =>
          ServedAlike(s, a, b, t, c);
          StoresAreSeparate(Serve(s, b, t, c).0, ServeApart(a, b, t, c).0, steps[1..]);
      }
    }
  }

  lemma EmptyIsSame(now: nat)
    ensures Same(Server(map[], now), Apart(map[], now))
  {
  }

  /** From an empty Redis on, the stores behave like separate maps that start empty. */
  lemma StoresAreSeparateFromTheStart(now: nat, steps: seq<Step>)
    requires forall step <- steps :: step.CallStep? ==> PlainBuilder(step.builder) && Positive(step.ttls)
    ensures ServeAll(Server(map[], now), steps).1 == ServeAllApart(Apart(map[], now), steps).1
    ensures WrongType !in ServeAll(Server(map[], now), steps).1
  {
    EmptyIsSame(now);
    StoresAreSeparate(Server(map[], now), Apart(map[], now), steps);
  }

  /** None of the steps is about the name. */
  predicate Elsewhere(steps: seq<Step>, f: FullName) {
    forall step <- steps :: step.CallStep? ==> FullName(step.builder, Stripped(NameOf(step.call))) != f
  }

  lemma {:induction false} EntryStays(a: Apart, f: FullName, steps: seq<Step>, e: Entry)
    requires f in a.entries && a.entries[f] == e && Elsewhere(steps, f)
    ensures var last := ServeAllApart(a, steps).0; f in last.entries && last.entries[f] == e
    decreases |steps|
  {
    if steps != [] {
      assert steps[0] in steps;
      match steps[0] {
        case Wait(n) => EntryStays(a.(now := a.now + n), f, steps[1..], e);
        case CallStep(b, t, c) => EntryStays(ServeApart(a, b, t, c).0, f, steps[1..], e);
      }
    }
  }

  /** A save that nothing complains about, then any run about other names, then a get of the same name. */
  lemma SavedIsReadBack(
    s: Server, a: Apart, b: KeyBuilder, t: Ttls, h: HashName, data: map<string, string>, steps: seq<Step>)
    requires Same(s, a) && PlainBuilder(b) && Positive(t) && Complaint(b, t, Save(h, data)).None?
    requires Elsewhere(steps, FullName(b, Stripped(Hashed(h))))
    requires forall step <- steps :: step.CallStep? ==> PlainBuilder(step.builder) && Positive(step.ttls)
    ensures
      var last := ServeAll(Serve(s, b, t, Save(h, data)).0, steps).0;
      var seconds := if h.Session? then t.session else if h.Conversation? then t.conversation else t.agent;
      Serve(last, b, t, Get(h)).1 == Data(if last.now < s.now + seconds then Some(data) else None)
  {
    var f := FullName(b, Stripped(Hashed(h)));
    var s1, a1 := Serve(s, b, t, Save(h, data)).0, ServeApart(a, b, t, Save(h, data)).0;
    ServedAlike(s, a, b, t, Save(h, data));
    SavedApart(a, b, t, h, data);
    StoresAreSeparate(s1, a1, steps);
    EntryStays(a1, f, steps, Entry(Fields(data), a.now + TtlOf(t, h)));
    ReadApart(ServeAllApart(a1, steps).0, b, t, h, data, a.now + TtlOf(t, h));
    ServedAlike(ServeAll(s1, steps).0, ServeAllApart(a1, steps).0, b, t, Get(h));
  }

  lemma SavedApart(a: Apart, b: KeyBuilder, t: Ttls, h: HashName, data: map<string, string>)
    requires Complaint(b, t, Save(h, data)).None?
    ensures
      var f := FullName(b, Stripped(Hashed(h)));
      ServeApart(a, b, t, Save(h, data)).0 ==
        a.(entries := a.entries[f := Entry(Fields(data), a.now + TtlOf(t, h))])
  {
  }

  lemma ReadApart(a: Apart, b: KeyBuilder, t: Ttls, h: HashName, data: map<string, string>, deadline: nat)
    requires Key(b, Hashed(h)).Fine?
    requires var f := FullName(b, Stripped(Hashed(h))); f in a.entries && a.entries[f] == Entry(Fields(data), deadline)
    ensures ServeApart(a, b, t, Get(h)).1 == Data(if a.now < deadline then Some(data) else None)
  {
  }

  /** A touch of an entry that is there, then any run about other names, then a get: the time counts from the touch. */
  lemma TouchedLivesOn(
    s: Server, a: Apart, b: KeyBuilder, t: Ttls, h: HashName, data: map<string, string>, steps: seq<Step>)
    requires Same(s, a) && PlainBuilder(b) && Positive(t) && Serve(s, b, t, Get(h)).1 == Data(Some(data))
    requires Elsewhere(steps, FullName(b, Stripped(Hashed(h))))
    requires forall step <- steps :: step.CallStep? ==> PlainBuilder(step.builder) && Positive(step.ttls)
    ensures
      var last := ServeAll(Serve(s, b, t, Touch(h)).0, steps).0;
      var seconds := if h.Session? then t.session else if h.Conversation? then t.conversation else t.agent;
      && Serve(s, b, t, Touch(h)).1 == Flag(true)
      && Serve(last, b, t, Get(h)).1 == Data(if last.now < s.now + seconds then Some(data) else None)
  {
    var f := FullName(b, Stripped(Hashed(h)));
    var s1, a1 := Serve(s, b, t, Touch(h)).0, ServeApart(a, b, t, Touch(h)).0;
    ServedAlike(s, a, b, t, Get(h));
    ServedAlike(s, a, b, t, Touch(h));
    TouchedApart(a, b, t, h, data);
    var e := Entry(Fields(data), a.now + TtlOf(t, h));
    StoresAreSeparate(s1, a1, steps);
    EntryStays(a1, f, steps, e);
    ReadApart(ServeAllApart(a1, steps).0, b, t, h, data, e.deadline);
    ServedAlike(ServeAll(s1, steps).0, ServeAllApart(a1, steps).0, b, t, Get(h));
  }

  lemma TouchedApart(a: Apart, b: KeyBuilder, t: Ttls, h: HashName, data: map<string, string>)
    requires ServeApart(a, b, t, Get(h)).1 == Data(Some(data))
    ensures
      var f := FullName(b, Stripped(Hashed(h)));
      && ServeApart(a, b, t, Touch(h)) ==
           (a.(entries := a.entries[f := Entry(Fields(data), a.now + TtlOf(t, h))]), Flag(true))
      && Key(b, Hashed(h)).Fine?
  {
  }

  /** A text that is put without complaint is fetched back until its own time, or else that of the cache, is up. */
  lemma PutIsFetched(
    s: Server, a: Apart, b: KeyBuilder, t: Ttls, space: string, identifier: string, text: string, ttl: Option<int>,
    steps: seq<Step>)
    requires Same(s, a) && PlainBuilder(b) && Positive(t) && Complaint(b, t, Put(space, identifier, text, ttl)).None?
    requires Elsewhere(steps, FullName(b, Stripped(Cached(space, identifier))))
    requires forall step <- steps :: step.CallStep? ==> PlainBuilder(step.builder) && Positive(step.ttls)
    ensures
      var put := Put(space, identifier, text, ttl);
      var last := ServeAll(Serve(s, b, t, put).0, steps).0;
      var lives := last.now < s.now + if ttl.Some? then ttl.value else t.cache;
      && Serve(s, b, t, put).1 == Done
      && Serve(last, b, t, Fetch(space, identifier)).1 == TextReply(if lives then Some(text) else None)
      && Serve(last, b, t, Has(space, identifier)).1 == Flag(lives)
  {
    var f, put := FullName(b, Stripped(Cached(space, identifier))), Put(space, identifier, text, ttl);
    var s1, a1 := Serve(s, b, t, put).0, ServeApart(a, b, t, put).0;
    var e := Entry(Line(text), a.now + if ttl.Some? then ttl.value else t.cache);
    ServedAlike(s, a, b, t, put);
    PutApart(a, b, t, space, identifier, text, ttl);
    StoresAreSeparate(s1, a1, steps);
    EntryStays(a1, f, steps, e);
    CachedIsRead(ServeAll(s1, steps).0, ServeAllApart(a1, steps).0, b, t, space, identifier, text, e.deadline);
  }

  lemma PutApart(
    a: Apart, b: KeyBuilder, t: Ttls, space: string, identifier: string, text: string, ttl: Option<int>)
    requires Complaint(b, t, Put(space, identifier, text, ttl)).None?
    ensures
      var f := FullName(b, Stripped(Cached(space, identifier)));
      ServeApart(a, b, t, Put(space, identifier, text, ttl)) ==
        (a.(entries := a.entries[f := Entry(Line(text), a.now + if ttl.Some? then ttl.value else t.cache)]), Done)
  {
  }

  lemma CachedIsRead(
    s: Server, a: Apart, b: KeyBuilder, t: Ttls, space: string, identifier: string, text: string, deadline: nat)
    requires Same(s, a) && PlainBuilder(b) && Positive(t) && Key(b, Cached(space, identifier)).Fine?
    requires var f := FullName(b, Stripped(Cached(space, identifier)));
             f in a.entries && a.entries[f] == Entry(Line(text), deadline)
    ensures Serve(s, b, t, Fetch(space, identifier)).1 == TextReply(if s.now < deadline then Some(text) else None)
    ensures Serve(s, b, t, Has(space, identifier)).1 == Flag(s.now < deadline)
  {
    ServedAlike(s, a, b, t, Fetch(space, identifier));
    ServedAlike(s, a, b, t, Has(space, identifier));
  }

  lemma {:induction false} AbsenceStays(a: Apart, f: FullName, steps: seq<Step>)
    requires f !in a.entries && Elsewhere(steps, f)
    ensures f !in ServeAllApart(a, steps).0.entries
    decreases |steps|
  {
    if steps != [] {
      assert steps[0] in steps;
      match steps[0] {
        case Wait(n) => AbsenceStays(a.(now := a.now + n), f, steps[1..]);
        case CallStep(b, t, c) => AbsenceStays(ServeApart(a, b, t, c).0, f, steps[1..]);
      }
    }
  }

  /**
   What is removed under a valid name is gone, whatever happens under other names; the reply tells
   whether it was there.
   */
  lemma RemovedIsGone(s: Server, a: Apart, b: KeyBuilder, t: Ttls, n: Name, steps: seq<Step>)
    requires Same(s, a) && PlainBuilder(b) && Positive(t) && Key(b, n).Fine?
    requires Elsewhere(steps, FullName(b, Stripped(n)))
    requires forall step <- steps :: step.CallStep? ==> PlainBuilder(step.builder) && Positive(step.ttls)
    ensures
      var last := ServeAll(Serve(s, b, t, Remove(n)).0, steps).0;
      match n
      case Hashed(h) =>
        && Serve(last, b, t, Get(h)).1 == Data(None)
        && Serve(s, b, t, Remove(n)).1 == Flag(Serve(s, b, t, Get(h)).1 != Data(None))
      case Cached(space, identifier) =>
        && Serve(last, b, t, Fetch(space, identifier)).1 == TextReply(None)
        && Serve(s, b, t, Remove(n)).1 == Serve(s, b, t, Has(space, identifier)).1
  {
    var s1, a1 := Serve(s, b, t, Remove(n)).0, ServeApart(a, b, t, Remove(n)).0;
    RemoveTells(s, a, b, t, n);
    StoresAreSeparate(s1, a1, steps);
    AbsenceStays(a1, FullName(b, Stripped(n)), steps);
    AbsentIsNotFound(ServeAll(s1, steps).0, ServeAllApart(a1, steps).0, b, t, n);
  }

  lemma RemoveTells(s: Server, a: Apart, b: KeyBuilder, t: Ttls, n: Name)
    requires Same(s, a) && PlainBuilder(b) && Positive(t) && Key(b, n).Fine?
    ensures Same(Serve(s, b, t, Remove(n)).0, ServeApart(a, b, t, Remove(n)).0)
    ensures FullName(b, Stripped(n)) !in ServeApart(a, b, t, Remove(n)).0.entries
    ensures
      match n
      case Hashed(h) => Serve(s, b, t, Remove(n)).1 == Flag(Serve(s, b, t, Get(h)).1 != Data(None))
      case Cached(space, identifier) => Serve(s, b, t, Remove(n)).1 == Serve(s, b, t, Has(space, identifier)).1
  {
    ServedAlike(s, a, b, t, Remove(n));
    UsedName(b, n);
    LookupAgrees(s, a, FullName(b, Stripped(n)));
  }

  lemma AbsentIsNotFound(s: Server, a: Apart, b: KeyBuilder, t: Ttls, n: Name)
    requires Same(s, a) && PlainBuilder(b) && Positive(t) && Key(b, n).Fine?
    requires FullName(b, Stripped(n)) !in a.entries
    ensures
      match n
      case Hashed(h) => Serve(s, b, t, Get(h)).1 == Data(None)
      case Cached(space, identifier) => Serve(s, b, t, Fetch(space, identifier)).1 == TextReply(None)
  {
    UsedName(b, n);
    LookupAgrees(s, a, FullName(b, Stripped(n)));
  }

  /**
   A call that is turned down changes nothing. Without data, a session is turned down for that, and the
   two other kinds for a bad name first; a time to live that is not positive is found before a bad name.
   */
  lemma TurnedDown(s: Server, b: KeyBuilder, t: Ttls, h: HashName, space: string, identifier: string, text: string,
      ttl: int)
    ensures
      var (next, r) := Serve(s, b, t, Save(h, map[]));
      && next == s
      && r == if !h.Session? && Key(b, Hashed(h)).Bad? then BadName(Key(b, Hashed(h)).error) else NoData
    ensures ttl <= 0 ==> Serve(s, b, t, Put(space, identifier, text, Some(ttl))) == (s, BadTtl)
  {
  }

  // ---------------------------------------------------------------- hits and misses

  datatype Metrics = Metrics(hits: nat, misses: nat)

  /** A get that reached Redis is a hit or a miss. */
  function Counted(m: Metrics, r: Reply): Metrics {
    match r
    case TextReply(None) => m.(misses := m.misses + 1)
    case TextReply(Some(_)) => m.(hits := m.hits + 1)
    case _ => m
  }

  /** The counters of the cache of builder b after a run on the shared Redis. */
  function CountedAll(m: Metrics, b: KeyBuilder, s: Server, steps: seq<Step>): Metrics
    decreases |steps|
  {
    if steps == [] then m
    else
      match steps[0]
      case Wait(n) => CountedAll(m, b, s.(now := s.now + n), steps[1..])
      case CallStep(o, t, c) =>
        var (next, r) := Serve(s, o, t, c);
        CountedAll(if o == b && c.Fetch? then Counted(m, r) else m, b, next, steps[1..])
  }

  /** A get of this builder's cache under a valid name. */
  predicate IsGet(b: KeyBuilder, step: Step) {
    step.CallStep? && step.builder == b && step.call.Fetch? && Key(b, NameOf(step.call)).Fine?
  }

  function GetsMade(b: KeyBuilder, steps: seq<Step>): nat {
    if steps == [] then 0 else (if IsGet(b, steps[0]) then 1 else 0) + GetsMade(b, steps[1..])
  }

  /** The gets that found an entry of their own name that was still alive. */
  function GetsFound(b: KeyBuilder, a: Apart, steps: seq<Step>): nat
    decreases |steps|
  {
    if steps == [] then 0
    else
      match steps[0]
      case Wait(n) => GetsFound(b, a.(now := a.now + n), steps[1..])
      case CallStep(o, t, c) =>
        (if IsGet(b, steps[0]) && Find(a, FullName(b, Stripped(NameOf(c)))).Some? then 1 else 0)
        + GetsFound(b, ServeApart(a, o, t, c).0, steps[1..])
  }

  /** One get counts once, as a hit exactly when its name's own entry is alive. */
  lemma GetIsCounted(m: Metrics, b: KeyBuilder, s: Server, a: Apart, t: Ttls, c: Call)
    requires Same(s, a) && PlainBuilder(b) && Positive(t) && c.Fetch?
    ensures
      var found := Find(a, FullName(b, Stripped(NameOf(c)))).Some?;
      Counted(m, Serve(s, b, t, c).1) ==
        if Key(b, NameOf(c)).Bad? then m
        else if found then m.(hits := m.hits + 1) else m.(misses := m.misses + 1)
  {
    ServedAlike(s, a, b, t, c);
    if Key(b, NameOf(c)).Fine? {
      UsedName(b, NameOf(c));
      LookupAgrees(s, a, FullName(b, Stripped(NameOf(c))));
    }
  }

  /**
   Over any run of all stores on one Redis, the hits and misses of a cache together are the gets made
   of it under valid names, and the hits are those that found a live entry of their own name.
   */
  lemma {:induction false} EveryGetIsCounted(m: Metrics, b: KeyBuilder, s: Server, a: Apart, steps: seq<Step>)
    requires Same(s, a)
    requires forall step <- steps :: step.CallStep? ==> PlainBuilder(step.builder) && Positive(step.ttls)
    ensures
      var n := CountedAll(m, b, s, steps);
      && n.hits + n.misses == m.hits + m.misses + GetsMade(b, steps)
      && n.hits == m.hits + GetsFound(b, a, steps)
    decreases |steps|
  {
    if steps != [] {
      assert steps[0] in steps;
      match steps[0] {
        case Wait(n) =>
          EveryGetIsCounted(m, b, s.(now := s.now + n), a.(now := a.now + n), steps[1..]);
        case CallStep(o, t, c) =>
          ServedAlike(s, a, o, t, c);
          if o == b && c.Fetch? {
            GetIsCounted(m, b, s, a, t, c);
          }
          var next := if o == b && c.Fetch? then Counted(m, Serve(s, o, t, c).1) else m;
          EveryGetIsCounted(next, b, Serve(s, o, t, c).0, ServeApart(a, o, t, c).0, steps[1..]);
      }
    }
  }

  // ---------------------------------------------------------------- the stores

  class Redis {
    var cells: map<string, Cell>
    var now: nat

    ghost function View(): Server
      reads this
    {
      Server(cells, now)
    }

    constructor ()
      ensures View() == Server(map[], 0)
    {
      cells, now := map[], 0;
    }

    method Read(key: string) returns (cell: Option<Cell>)
      ensures cell == Lookup(View(), key)
    {
      cell := if key in cells && Alive(cells[key], now) then Some(cells[key]) else None;
    }

    method Delete(key: string) returns (deleted: bool)
      modifies this
      ensures View() == Del(old(View()), key) && deleted == Lookup(old(View()), key).Some?
    {
      var cell := Read(key);
      cells := cells - {key};
      deleted := cell.Some?;
    }

    method HashSet(key: string, fields: map<string, string>)
      modifies this
      ensures View() == HSet(old(View()), key, fields)
    {
      var cell := Read(key);
      if cell.None? {
        cells := cells[key := Cell(Fields(fields), None)];
      } else if cell.value.value.Fields? {
        cells := cells[key := Cell(Fields(cell.value.value.fields + fields), cell.value.deadline)];
      }
    }

    method SetDeadline(key: string, ttl: nat) returns (refreshed: bool)
      modifies this
      ensures View() == Expire(old(View()), key, ttl) && refreshed == Lookup(old(View()), key).Some?
    {
      var cell := Read(key);
      refreshed := cell.Some?;
      if refreshed {
        cells := cells[key := cell.value.(deadline := Some(now + ttl))];
      }
    }

    method Write(key: string, text: string, ttl: nat)
      modifies this
      ensures View() == SetText(old(View()), key, text, ttl)
    {
      cells := cells[key := Cell(Line(text), Some(now + ttl))];
    }
  }

  /** The session store and the conversation and agent state stores: hashes under their kind of name. */
  class RedisHashStore {
    const client: Redis
    const keys: KeyBuilder
    const ttls: Ttls

    constructor (client: Redis, keys: KeyBuilder, ttls: Ttls)
      requires PlainBuilder(keys) && Positive(ttls)
      ensures this.client == client && this.keys == keys && this.ttls == ttls
    {
      this.client, this.keys, this.ttls := client, keys, ttls;
    }

    method SaveData(h: HashName, data: map<string, string>) returns (r: Reply)
      modifies client
      ensures (client.View(), r) == Serve(old(client.View()), keys, ttls, Save(h, data))
    {
      if h.Session? && data == map[] {
        return NoData;
      }
      match Key(keys, Hashed(h)) {
        case Bad(e) => return BadName(e);
        case Fine(key) =>
          if data == map[] {
            return NoData;
          }
          var deleted := client.Delete(key);
          client.HashSet(key, data);
          var refreshed := client.SetDeadline(key, TtlOf(ttls, h));
          r := Done;
      }
    }

    method GetData(h: HashName) returns (r: Reply)
      ensures (client.View(), r) == Serve(client.View(), keys, ttls, Get(h))
    {
      match Key(keys, Hashed(h)) {
        case Bad(e) => return BadName(e);
        case Fine(key) =>
          var cell := client.Read(key);
          if cell.None? {
            r := Data(None);
          } else if cell.value.value.Line? {
            r := WrongType;
          } else if cell.value.value.fields == map[] {
            r := Data(None);
          } else {
            r := Data(Some(cell.value.value.fields));
          }
      }
    }

    method DeleteData(h: HashName) returns (r: Reply)
      modifies client
      ensures (client.View(), r) == Serve(old(client.View()), keys, ttls, Remove(Hashed(h)))
    {
      match Key(keys, Hashed(h)) {
        case Bad(e) => return BadName(e);
        case Fine(key) =>
          var deleted := client.Delete(key);
          r := Flag(deleted);
      }
    }

    method TouchData(h: HashName) returns (r: Reply)
      modifies client
      ensures (client.View(), r) == Serve(old(client.View()), keys, ttls, Touch(h))
    {
      match Key(keys, Hashed(h)) {
        case Bad(e) => return BadName(e);
        case Fine(key) =>
          var refreshed := client.SetDeadline(key, TtlOf(ttls, h));
          r := Flag(refreshed);
      }
    }
  }

  class RedisCache {
    const client: Redis
    const keys: KeyBuilder
    const ttls: Ttls
    const measured: bool
    var hits: nat
    var misses: nat

    constructor (client: Redis, keys: KeyBuilder, ttls: Ttls, measured: bool)
      requires PlainBuilder(keys) && Positive(ttls)
      ensures this.client == client && this.keys == keys && this.ttls == ttls && this.measured == measured
      ensures hits == 0 && misses == 0
    {
      this.client, this.keys, this.ttls, this.measured := client, keys, ttls, measured;
      hits, misses := 0, 0;
    }

    method PutText(space: string, identifier: string, text: string, ttlSeconds: Option<int>) returns (r: Reply)
      modifies client
      ensures (client.View(), r) == Serve(old(client.View()), keys, ttls, Put(space, identifier, text, ttlSeconds))
    {
      var ttl := if ttlSeconds.None? then ttls.cache as int else ttlSeconds.value;
      if ttlSeconds.Some? && ttl <= 0 {
        return BadTtl;
      }
      match CacheKey(keys, space, identifier) {
        case Bad(e) => return BadName(e);
        case Fine(key) =>
          client.Write(key, text, ttl);
          r := Done;
      }
    }

    method FetchText(space: string, identifier: string) returns (r: Reply)
      modifies this
      ensures (client.View(), r) == Serve(client.View(), keys, ttls, Fetch(space, identifier))
      ensures Metrics(hits, misses) ==
        if measured then Counted(Metrics(old(hits), old(misses)), r) else Metrics(old(hits), old(misses))
    {
      match CacheKey(keys, space, identifier) {
        case Bad(e) => return BadName(e);
        case Fine(key) =>
          var cell := client.Read(key);
          if cell.Some? && cell.value.value.Fields? {
            return WrongType;
          }
          r := TextReply(if cell.Some? then Some(cell.value.value.text) else None);
          if measured {
            if cell.None? {
              misses := misses + 1;
            } else {
              hits := hits + 1;
            }
          }
      }
    }

    method DeleteText(space: string, identifier: string) returns (r: Reply)
      modifies client
      ensures (client.View(), r) == Serve(old(client.View()), keys, ttls, Remove(Cached(space, identifier)))
    {
      match CacheKey(keys, space, identifier) {
        case Bad(e) => return BadName(e);
        case Fine(key) =>
          var deleted := client.Delete(key);
          r := Flag(deleted);
      }
    }

    method Exists(space: string, identifier: string) returns (r: Reply)
      ensures (client.View(), r) == Serve(client.View(), keys, ttls, Has(space, identifier))
    {
      match CacheKey(keys, space, identifier) {
        case Bad(e) => return BadName(e);
        case Fine(key) =>
          var cell := client.Read(key);
          r := Flag(cell.Some?);
      }
    }
  }
}
