/** The keys under which the stores keep their entries in one shared Redis. */
module RedisKeys {
  import opened Options
  import Text

  datatype ComponentError = Empty | HasColon

  datatype Checked<T> = Fine(value: T) | Bad(error: ComponentError)

  /** A component without the whitespace around it; it may be neither empty nor contain a colon. */
  function ValidateComponent(value: string): Checked<string> {
    var value := Text.Strip(value);
    if value == "" then Bad(Empty) else if ':' in value then Bad(HasColon) else Fine(value)
  }

  predicate Plain(s: string) {
    s != "" && ':' !in s
  }

  lemma ValidatedIsPlain(value: string)
    ensures ValidateComponent(value).Fine? <==> Plain(Text.Strip(value))
    ensures ValidateComponent(value).Fine? ==> ValidateComponent(value).value == Text.Strip(value)
  {
  }

  // ---------------------------------------------------------------- names

  datatype HashName = Session(id: string) | Conversation(id: string) | Agent(agent: string, session: string)

  datatype Name = Hashed(hash: HashName) | Cached(space: string, identifier: string)

  /** A builder after its two components have been validated. */
  datatype KeyBuilder = KeyBuilder(prefix: string, environment: string)

  predicate PlainBuilder(b: KeyBuilder) {
    Plain(b.prefix) && Plain(b.environment)
  }

  /** Both components are validated, the prefix first. */
  function CreateBuilder(environment: string, prefix: string): (r: Checked<KeyBuilder>)
    ensures r.Fine? <==> Plain(Text.Strip(prefix)) && Plain(Text.Strip(environment))
    ensures r.Fine? ==> PlainBuilder(r.value)
    ensures r.Bad? ==> r.error == if !Plain(Text.Strip(prefix)) then ErrorIn(prefix) else ErrorIn(environment)
  {
    match ValidateComponent(prefix)
    case Bad(e) => Bad(e)
    case Fine(p) =>
      match ValidateComponent(environment)
      case Bad(e) => Bad(e)
      case Fine(v) => Fine(KeyBuilder(p, v))
  }

  function ErrorIn(value: string): ComponentError {
    if Text.Strip(value) == "" then Empty else HasColon
  }

  function Base(b: KeyBuilder): string {
    b.prefix + [':'] + b.environment
  }

  function SessionKey(b: KeyBuilder, id: string): Checked<string> {
    match ValidateComponent(id)
    case Bad(e) => Bad(e)
    case Fine(id) => Fine(Base(b) + [':'] + "session" + [':'] + id)
  }

  function ConversationKey(b: KeyBuilder, id: string): Checked<string> {
    match ValidateComponent(id)
    case Bad(e) => Bad(e)
    case Fine(id) => Fine(Base(b) + [':'] + "conversation" + [':'] + id)
  }

  function AgentKey(b: KeyBuilder, agent: string, session: string): Checked<string> {
    match ValidateComponent(agent)
    case Bad(e) => Bad(e)
    case Fine(agent) =>
      match ValidateComponent(session)
      case Bad(e) => Bad(e)
      case Fine(session) => Fine(Base(b) + [':'] + "agent" + [':'] + agent + [':'] + session)
  }

  function CacheKey(b: KeyBuilder, space: string, identifier: string): Checked<string> {
    match ValidateComponent(space)
    case Bad(e) => Bad(e)
    case Fine(space) =>
      match ValidateComponent(identifier)
      case Bad(e) => Bad(e)
      case Fine(identifier) => Fine(Base(b) + [':'] + "cache" + [':'] + space + [':'] + identifier)
  }

  function Key(b: KeyBuilder, n: Name): Checked<string> {
    match n
    case Hashed(Session(id)) => SessionKey(b, id)
    case Hashed(Conversation(id)) => ConversationKey(b, id)
    case Hashed(Agent(agent, session)) => AgentKey(b, agent, session)
    case Cached(space, identifier) => CacheKey(b, space, identifier)
  }

  /** The name with its components stripped. */
  function Stripped(n: Name): Name {
    match n
    case Hashed(Session(id)) => Hashed(Session(Text.Strip(id)))
    case Hashed(Conversation(id)) => Hashed(Conversation(Text.Strip(id)))
    case Hashed(Agent(agent, session)) => Hashed(Agent(Text.Strip(agent), Text.Strip(session)))
    case Cached(space, identifier) => Cached(Text.Strip(space), Text.Strip(identifier))
  }

  function Components(n: Name): seq<string> {
    match n
    case Hashed(Session(id)) => ["session", id]
    case Hashed(Conversation(id)) => ["conversation", id]
    case Hashed(Agent(agent, session)) => ["agent", agent, session]
    case Cached(space, identifier) => ["cache", space, identifier]
  }

  predicate PlainName(n: Name) {
    forall c <- Components(n) :: Plain(c)
  }

  // ---------------------------------------------------------------- keys can be read back

  lemma JoinTwo(a: string, b: string)
    ensures Text.Join([a, b], ':') == a + [':'] + b
  {
    assert [a, b][1..] == [b];
  }

  lemma JoinMore(a: string, rest: seq<string>)
    requires rest != []
    ensures Text.Join([a] + rest, ':') == a + [':'] + Text.Join(rest, ':')
  {
    assert ([a] + rest)[1..] == rest;
  }

  /** The key of a name, written as its parts joined by colons. */
  function Parts(b: KeyBuilder, n: Name): seq<string> {
    [b.prefix] + ([b.environment] + Components(n))
  }

  lemma PartsJoin(b: KeyBuilder, n: Name)
    ensures Text.Join(Parts(b, n), ':') == b.prefix + [':'] + (b.environment + [':'] + Text.Join(Components(n), ':'))
  {
    JoinMore(b.prefix, [b.environment] + Components(n));
    JoinMore(b.environment, Components(n));
  }

  lemma ComponentsJoin(n: Name)
    ensures Text.Join(Components(n), ':') ==
      match n
      case Hashed(Session(id)) => "session" + [':'] + id
      case Hashed(Conversation(id)) => "conversation" + [':'] + id
      case Hashed(Agent(agent, session)) => "agent" + [':'] + (agent + [':'] + session)
      case Cached(space, identifier) => "cache" + [':'] + (space + [':'] + identifier)
  {
    match n {
      case Hashed(Session(id)) => JoinTwo("session", id);
      case Hashed(Conversation(id)) => JoinTwo("conversation", id);
      case Hashed(Agent(agent, session)) =>
        assert Components(n) == ["agent"] + [agent, session];
        JoinMore("agent", [agent, session]);
        JoinTwo(agent, session);
      case Cached(space, identifier) =>
        assert Components(n) == ["cache"] + [space, identifier];
        JoinMore("cache", [space, identifier]);
        JoinTwo(space, identifier);
    }
  }

  /** A key exists exactly when the stripped components are plain; splitting it at the colons gives back its parts. */
  lemma KeyReadsBack(b: KeyBuilder, n: Name)
    requires PlainBuilder(b)
    ensures Key(b, n).Fine? <==> PlainName(Stripped(n))
    ensures Key(b, n).Fine? ==> Text.Split(Key(b, n).value, ':') == Parts(b, Stripped(n))
  {
    KeyExists(b, n);
    if Key(b, n).Fine? {
      KeyIsJoined(b, n);
      var parts := Parts(b, Stripped(n));
      assert Text.Free(parts, ':') by {
        forall p | p in parts
          ensures ':' !in p
        {
          assert p == b.prefix || p == b.environment || p in Components(Stripped(n));
        }
      }
      Text.SplitOfJoin(parts, ':');
    }
  }

  lemma KeyExists(b: KeyBuilder, n: Name)
    ensures Key(b, n).Fine? <==> PlainName(Stripped(n))
  {
    KindsArePlain();
    var components := Components(Stripped(n));
    assert |components| == 2 ==> components == [components[0], components[1]];
    assert |components| == 3 ==> components == [components[0], components[1], components[2]];
    match n {
      case Hashed(Session(id)) => ValidatedIsPlain(id);
      case Hashed(Conversation(id)) => ValidatedIsPlain(id);
      case Hashed(Agent(agent, session)) =>
        ValidatedIsPlain(agent);
        ValidatedIsPlain(session);
      case Cached(space, identifier) =>
        ValidatedIsPlain(space);
        ValidatedIsPlain(identifier);
    }
  }

  lemma KindsArePlain()
    ensures Plain("session") && Plain("conversation") && Plain("agent") && Plain("cache")
  {
  }

  lemma KeyIsJoined(b: KeyBuilder, n: Name)
    requires Key(b, n).Fine?
    ensures Key(b, n).value == Text.Join(Parts(b, Stripped(n)), ':')
  {
    var m := Stripped(n);
    PartsJoin(b, m);
    ComponentsJoin(m);
    match m {
      case Hashed(Session(id)) => Regroup(b.prefix, b.environment, "session", id);
      case Hashed(Conversation(id)) => Regroup(b.prefix, b.environment, "conversation", id);
      case Hashed(Agent(agent, session)) => RegroupMore(b.prefix, b.environment, "agent", agent, session);
      case Cached(space, identifier) => RegroupMore(b.prefix, b.environment, "cache", space, identifier);
    }
  }

  lemma Regroup(a: string, b: string, c: string, d: string)
    ensures (a + [':'] + b) + [':'] + c + [':'] + d == a + [':'] + (b + [':'] + (c + [':'] + d))
  {
  }

  lemma RegroupMore(a: string, b: string, c: string, d: string, e: string)
    ensures (a + [':'] + b) + [':'] + c + [':'] + d + [':'] + e ==
      a + [':'] + (b + [':'] + (c + [':'] + (d + [':'] + e)))
  {
  }

  lemma ComponentsDetermineTheName(m: Name, n: Name)
    requires Components(m) == Components(n)
    ensures m == n
  {
    var a, b := Components(m), Components(n);
    assert |a| == |b| && a[0] == b[0] && a[1] == b[1];
    KindsDiffer();
    if |a| == 3 {
      assert a[2] == b[2];
    }
  }

  lemma KindsDiffer()
    ensures "session" != "conversation" && "agent" != "cache"
  {
    assert |"session"| != |"conversation"|;
    assert "agent"[0] == 'a' && "cache"[0] == 'c';
  }

  /** Two keys are equal exactly when prefix, environment, kind and stripped components are. */
  lemma KeysAreInjective(b: KeyBuilder, m: Name, c: KeyBuilder, n: Name)
    requires PlainBuilder(b) && PlainBuilder(c) && Key(b, m).Fine? && Key(c, n).Fine?
    ensures Key(b, m) == Key(c, n) <==> b == c && Stripped(m) == Stripped(n)
  {
    KeyReadsBack(b, m);
    KeyReadsBack(c, n);
    if Key(b, m) == Key(c, n) {
      var x, y := Parts(b, Stripped(m)), Parts(c, Stripped(n));
      assert x == y && x[0] == y[0] && x[1] == y[1] && x[2..] == y[2..];
      assert x[2..] == Components(Stripped(m)) && y[2..] == Components(Stripped(n));
      ComponentsDetermineTheName(Stripped(m), Stripped(n));
    } else if b == c && Stripped(m) == Stripped(n) {
      KeyIsJoined(b, m);
      KeyIsJoined(c, n);
      assert false;
    }
  }

  /** Keys of created builders are equal exactly when what they were created from and the names are, up to stripping. */
  lemma CreatedKeysAreInjective(
    environment: string, prefix: string, m: Name, otherEnvironment: string, otherPrefix: string, n: Name)
    requires CreateBuilder(environment, prefix).Fine? && CreateBuilder(otherEnvironment, otherPrefix).Fine?
    requires Key(CreateBuilder(environment, prefix).value, m).Fine?
    requires Key(CreateBuilder(otherEnvironment, otherPrefix).value, n).Fine?
    ensures
      Key(CreateBuilder(environment, prefix).value, m) ==
        Key(CreateBuilder(otherEnvironment, otherPrefix).value, n) <==>
        && Text.Strip(prefix) == Text.Strip(otherPrefix) && Text.Strip(environment) == Text.Strip(otherEnvironment)
        && Stripped(m) == Stripped(n)
  {
    KeysAreInjective(CreateBuilder(environment, prefix).value, m,
      CreateBuilder(otherEnvironment, otherPrefix).value, n);
  }
}
