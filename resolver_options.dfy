/** Options of the ZooKeeper resolver: the six-field record, the functional
    options that set one field each, their ordered application, and the
    validation and defaulting that newOptions runs once they are applied. */
module ResolverOptions {

  /** time.Duration: a signed 64-bit count of nanoseconds. */
  newtype Duration = x: int | -0x8000_0000_0000_0000 <= x < 0x8000_0000_0000_0000

  const Second: Duration := 1_000_000_000

  /** The registry group used when none is configured. Its value is defined
      outside the modelled files, so it is left uninterpreted here. */
  const DefaultRegistryGroup: string

  /** The session timeout used when none is configured: three seconds. */
  const DefaultSessionTimeout: Duration := 3 * Second

  /** The value held by an Options record. */
  datatype Config = Config(
    servers: seq<string>,
    interfaceName: string,
    registryGroup: string,
    serviceGroup: string,
    serviceVersion: string,
    sessionTimeout: Duration)

  /** The zero record `&Options{}` that newOptions starts from. */
  const Empty: Config := Config([], "", "", "", "", 0)

  /** One variant per With* constructor; each carries the constructor's argument. */
  datatype Option =
    | WithServers(servers: seq<string>)
    | WithInterfaceName(name: string)
    | WithRegistryGroup(registryGroup: string)
    | WithServiceGroup(serviceGroup: string)
    | WithServiceVersion(version: string)
    | WithSessionTimeout(timeout: Duration)

  /** The six fields of a record, and the values a field can hold. */
  datatype Field = Servers | InterfaceName | RegistryGroup | ServiceGroup | ServiceVersion | SessionTimeout
  datatype FieldValue = Strings(strings: seq<string>) | Text(text: string) | Nanos(nanos: Duration)

  function Get(c: Config, f: Field): FieldValue {
    match f
    case Servers => Strings(c.servers)
    case InterfaceName => Text(c.interfaceName)
    case RegistryGroup => Text(c.registryGroup)
    case ServiceGroup => Text(c.serviceGroup)
    case ServiceVersion => Text(c.serviceVersion)
    case SessionTimeout => Nanos(c.sessionTimeout)
  }

  /** The field an option's setter writes, and the value it writes there. */
  function Target(o: Option): Field {
    match o
    case WithServers(_) => Servers
    case WithInterfaceName(_) => InterfaceName
    case WithRegistryGroup(_) => RegistryGroup
    case WithServiceGroup(_) => ServiceGroup
    case WithServiceVersion(_) => ServiceVersion
    case WithSessionTimeout(_) => SessionTimeout
  }

  function Argument(o: Option): FieldValue {
    match o
    case WithServers(s) => Strings(s)
    case WithInterfaceName(n) => Text(n)
    case WithRegistryGroup(g) => Text(g)
    case WithServiceGroup(g) => Text(g)
    case WithServiceVersion(v) => Text(v)
    case WithSessionTimeout(t) => Nanos(t)
  }

  /** What the closure `F` built by a With* constructor does to a record. */
  function Set(c: Config, o: Option): Config {
    match o
    case WithServers(s) => c.(servers := s)
    case WithInterfaceName(n) => c.(interfaceName := n)
    case WithRegistryGroup(g) => c.(registryGroup := g)
    case WithServiceGroup(g) => c.(serviceGroup := g)
    case WithServiceVersion(v) => c.(serviceVersion := v)
    case WithSessionTimeout(t) => c.(sessionTimeout := t)
  }

  /** The record after running the options' setters left to right. */
  function ApplyAll(c: Config, opts: seq<Option>): Config
    decreases |opts|
  {
    if opts == [] then c else ApplyAll(Set(c, opts[0]), opts[1..])
  }

  /** No option in `opts` writes field `f`. */
  predicate Untouched(opts: seq<Option>, f: Field) {
    forall j :: 0 <= j < |opts| ==> Target(opts[j]) != f
  }

  // ---------------------------------------------------------------------
  // Setters and their application

  /** A record is determined by the values of its six fields. */
  lemma FieldsDetermineConfig(a: Config, b: Config)
    requires forall f: Field :: Get(a, f) == Get(b, f)
    ensures a == b
  {
    assert Get(a, Servers) == Get(b, Servers);
    assert Get(a, InterfaceName) == Get(b, InterfaceName);
    assert Get(a, RegistryGroup) == Get(b, RegistryGroup);
    assert Get(a, ServiceGroup) == Get(b, ServiceGroup);
    assert Get(a, ServiceVersion) == Get(b, ServiceVersion);
    assert Get(a, SessionTimeout) == Get(b, SessionTimeout);
  }

  /** Each setter writes its own field, replacing what was there, and leaves
      the other five unchanged. */
  lemma SetterFrame(c: Config, o: Option, f: Field)
    ensures Get(Set(c, o), f) == if f == Target(o) then Argument(o) else Get(c, f)
  {
  }

  /** Two setters of the same field: the second wins outright (WithServers
      replaces the list and never appends to it). */
  lemma SameFieldLastWins(c: Config, a: Option, b: Option)
    requires Target(a) == Target(b)
    ensures Set(Set(c, a), b) == Set(c, b)
  {
    forall f: Field ensures Get(Set(Set(c, a), b), f) == Get(Set(c, b), f) {
      SetterFrame(c, a, f);
      SetterFrame(Set(c, a), b, f);
      SetterFrame(c, b, f);
    }
    FieldsDetermineConfig(Set(Set(c, a), b), Set(c, b));
  }

  /** Two setters of different fields can run in either order. */
  lemma DistinctFieldsCommute(c: Config, a: Option, b: Option)
    requires Target(a) != Target(b)
    ensures Set(Set(c, a), b) == Set(Set(c, b), a)
  {
    forall f: Field ensures Get(Set(Set(c, a), b), f) == Get(Set(Set(c, b), a), f) {
      SetterFrame(c, a, f);
      SetterFrame(Set(c, a), b, f);
      SetterFrame(c, b, f);
      SetterFrame(Set(c, b), a, f);
    }
    FieldsDetermineConfig(Set(Set(c, a), b), Set(Set(c, b), a));
  }

  /** Applying no options changes nothing. */
  lemma ApplyNothing(c: Config)
    ensures ApplyAll(c, []) == c
  {
  }

  /** Applying `a + b` is applying `a`, then `b`. */
  lemma {:induction false} ApplyAllConcat(c: Config, a: seq<Option>, b: seq<Option>)
    ensures ApplyAll(c, a + b) == ApplyAll(ApplyAll(c, a), b)
    decreases |a|
  {
    if a == [] {
      assert a + b == b;
    } else {
      assert (a + b)[1..] == a[1..] + b;
      ApplyAllConcat(Set(c, a[0]), a[1..], b);
    }
  }

  /** Applying one more option runs its setter on the record built so far. */
  lemma ApplyAllSnoc(c: Config, opts: seq<Option>, o: Option)
    ensures ApplyAll(c, opts + [o]) == Set(ApplyAll(c, opts), o)
  {
    ApplyAllConcat(c, opts, [o]);
  }

  /** A field no option writes keeps its initial value. */
  lemma {:induction false} FieldUntouched(c: Config, opts: seq<Option>, f: Field)
    requires Untouched(opts, f)
    ensures Get(ApplyAll(c, opts), f) == Get(c, f)
    decreases |opts|
  {
    if opts != [] {
      SetterFrame(c, opts[0], f);
      assert Untouched(opts[1..], f) by {
        forall j | 0 <= j < |opts[1..]| ensures Target(opts[1..][j]) != f {
          assert opts[1..][j] == opts[j + 1];
        }
      }
      FieldUntouched(Set(c, opts[0]), opts[1..], f);
    }
  }

  /** The last option that writes a field decides its value. */
  lemma LastWriterWins(c: Config, opts: seq<Option>, i: nat)
    requires i < |opts|
    requires Untouched(opts[i + 1..], Target(opts[i]))
    ensures Get(ApplyAll(c, opts), Target(opts[i])) == Argument(opts[i])
  {
    var f := Target(opts[i]);
    assert opts == opts[..i] + [opts[i]] + opts[i + 1..];
    ApplyAllConcat(c, opts[..i] + [opts[i]], opts[i + 1..]);
    ApplyAllSnoc(c, opts[..i], opts[i]);
    SetterFrame(ApplyAll(c, opts[..i]), opts[i], f);
    FieldUntouched(ApplyAll(c, opts[..i] + [opts[i]]), opts[i + 1..], f);
  }

  // ---------------------------------------------------------------------
  // Validation and defaulting

  datatype OptionsError = MissingServers | MissingInterfaceName

  datatype Result<T> = Ok(value: T) | Err(error: OptionsError)

  /** The checks and defaults newOptions runs on the applied record; a
      failure stands for its panic. */
  function Finalize(c: Config): (r: Result<Config>)
    ensures r.Err? <==> |c.servers| == 0 || c.interfaceName == ""
    ensures |c.servers| == 0 ==> r == Err(MissingServers)
    ensures |c.servers| > 0 && c.interfaceName == "" ==> r == Err(MissingInterfaceName)
    ensures r.Ok? ==> r.value.servers == c.servers && r.value.interfaceName == c.interfaceName
    ensures r.Ok? ==> r.value.serviceGroup == c.serviceGroup && r.value.serviceVersion == c.serviceVersion
    ensures r.Ok? ==> r.value.registryGroup == if c.registryGroup == "" then DefaultRegistryGroup else c.registryGroup
    ensures r.Ok? ==> r.value.sessionTimeout == if c.sessionTimeout == 0 then DefaultSessionTimeout else c.sessionTimeout
    ensures r.Ok? ==> |r.value.servers| > 0 && r.value.interfaceName != "" && r.value.sessionTimeout != 0
  {
    if |c.servers| == 0 then Err(MissingServers)
    else if c.interfaceName == "" then Err(MissingInterfaceName)
    else
      var group := if c.registryGroup == "" then DefaultRegistryGroup else c.registryGroup;
      var timeout := if c.sessionTimeout == 0 then DefaultSessionTimeout else c.sessionTimeout;
      Ok(c.(registryGroup := group, sessionTimeout := timeout))
  }

  /** Validating and defaulting an already finalized record gives it back. */
  lemma FinalizeIdempotent(c: Config)
    requires Finalize(c).Ok?
    ensures Finalize(Finalize(c).value) == Finalize(c)
  {
  }

  /** What newOptions computes from a list of options. */
  function Built(opts: seq<Option>): Result<Config> {
    Finalize(ApplyAll(Empty, opts))
  }

  /** Without WithServers, building fails with the missing-servers error,
      whatever else is supplied (also when the interface name is missing). */
  lemma NoServersFails(opts: seq<Option>)
    requires Untouched(opts, Servers)
    ensures Built(opts) == Err(MissingServers)
  {
    FieldUntouched(Empty, opts, Servers);
  }

  /** Without WithInterfaceName, building fails. */
  lemma NoInterfaceNameFails(opts: seq<Option>)
    requires Untouched(opts, InterfaceName)
    ensures Built(opts).Err?
  {
    FieldUntouched(Empty, opts, InterfaceName);
  }

  /** The last WithServers decides the outcome for the servers: an empty list
      fails, any other list (even `[""]`) is kept as given. */
  lemma LastServersDecide(opts: seq<Option>, i: nat)
    requires i < |opts| && opts[i].WithServers?
    requires Untouched(opts[i + 1..], Servers)
    ensures |opts[i].servers| == 0 ==> Built(opts) == Err(MissingServers)
    ensures Built(opts).Ok? ==> Built(opts).value.servers == opts[i].servers
  {
    LastWriterWins(Empty, opts, i);
  }

  /** When the last WithServers has a non-empty list and the last
      WithInterfaceName a non-empty name, building succeeds and keeps both. */
  lemma BuiltSucceeds(opts: seq<Option>, i: nat, j: nat)
    requires i < |opts| && opts[i].WithServers? && |opts[i].servers| > 0
    requires Untouched(opts[i + 1..], Servers)
    requires j < |opts| && opts[j].WithInterfaceName? && opts[j].name != ""
    requires Untouched(opts[j + 1..], InterfaceName)
    ensures Built(opts).Ok?
    ensures Built(opts).value.servers == opts[i].servers
    ensures Built(opts).value.interfaceName == opts[j].name
  {
    LastWriterWins(Empty, opts, i);
    LastWriterWins(Empty, opts, j);
  }

  /** Without WithSessionTimeout, a built record has the three-second default. */
  lemma UnsetTimeoutDefaults(opts: seq<Option>)
    requires Untouched(opts, SessionTimeout)
    requires Built(opts).Ok?
    ensures Built(opts).value.sessionTimeout == 3 * Second
  {
    FieldUntouched(Empty, opts, SessionTimeout);
  }

  /** The last WithSessionTimeout is kept unless it is zero; negative
      timeouts are kept too. */
  lemma LastTimeoutDecides(opts: seq<Option>, i: nat)
    requires i < |opts| && opts[i].WithSessionTimeout?
    requires Untouched(opts[i + 1..], SessionTimeout)
    requires Built(opts).Ok?
    ensures Built(opts).value.sessionTimeout ==
              if opts[i].timeout == 0 then DefaultSessionTimeout else opts[i].timeout
  {
    LastWriterWins(Empty, opts, i);
  }

  /** Without WithRegistryGroup, a built record has the default group. */
  lemma UnsetRegistryGroupDefaults(opts: seq<Option>)
    requires Untouched(opts, RegistryGroup)
    requires Built(opts).Ok?
    ensures Built(opts).value.registryGroup == DefaultRegistryGroup
  {
    FieldUntouched(Empty, opts, RegistryGroup);
  }

  /** The last WithRegistryGroup's value is kept unless it is empty, in which
      case the default is used. */
  lemma LastRegistryGroupDecides(opts: seq<Option>, i: nat)
    requires i < |opts| && opts[i].WithRegistryGroup?
    requires Untouched(opts[i + 1..], RegistryGroup)
    requires Built(opts).Ok?
    ensures Built(opts).value.registryGroup ==
              if opts[i].registryGroup == "" then DefaultRegistryGroup else opts[i].registryGroup
  {
    LastWriterWins(Empty, opts, i);
  }

  /** Servers and an interface name given once each: the record holds them,
      with the default timeout. */
  lemma ScenarioDefaults()
    ensures Built([WithServers(["127.0.0.1:2181"]), WithInterfaceName("org.example.GreetProvider")])
         == Ok(Config(["127.0.0.1:2181"], "org.example.GreetProvider", DefaultRegistryGroup, "", "", 3 * Second))
  {
  }

  /** An interface name alone: the missing servers are reported. */
  lemma ScenarioNoServers()
    ensures Built([WithInterfaceName("x")]) == Err(MissingServers)
  {
  }

  /** An explicit ten-second timeout overrides the default. */
  lemma ScenarioTimeoutOverride()
    ensures Built([WithServers(["a:1", "b:2"]), WithInterfaceName("x"), WithSessionTimeout(10 * Second)])
         == Ok(Config(["a:1", "b:2"], "x", DefaultRegistryGroup, "", "", 10 * Second))
  {
    var opts := [WithServers(["a:1", "b:2"]), WithInterfaceName("x"), WithSessionTimeout(10 * Second)];
    var c1 := Set(Empty, opts[0]);
    var c2 := Set(c1, opts[1]);
    assert opts[1..][1..] == [opts[2]];
    assert ApplyAll(c2, [opts[2]]) == Set(c2, opts[2]);
    assert ApplyAll(Empty, opts) == Set(c2, opts[2]);
  }

  // ---------------------------------------------------------------------
  // The mutable record

  /** The Options record, updated in place by the setters. */
  class Options {
    var servers: seq<string>
    var interfaceName: string
    var registryGroup: string
    var serviceGroup: string
    var serviceVersion: string
    var sessionTimeout: Duration

    function Value(): Config
      reads this
    {
      Config(servers, interfaceName, registryGroup, serviceGroup, serviceVersion, sessionTimeout)
    }

    /** `&Options{}`: every field at its zero value. */
    constructor ()
      ensures Value() == Empty
    {
      servers, interfaceName, registryGroup := [], "", "";
      serviceGroup, serviceVersion, sessionTimeout := "", "", 0;
    }

    /** Runs the setter `o.F` on this record. */
    method Update(o: Option)
      modifies this
      ensures Value() == Set(old(Value()), o)
    {
      match o
      case WithServers(s) => servers := s;
      case WithInterfaceName(n) => interfaceName := n;
      case WithRegistryGroup(g) => registryGroup := g;
      case WithServiceGroup(g) => serviceGroup := g;
      case WithServiceVersion(v) => serviceVersion := v;
      case WithSessionTimeout(t) => sessionTimeout := t;
    }

    /** Runs the options' setters in order. */
    method Apply(opts: seq<Option>)
      modifies this
      ensures Value() == ApplyAll(old(Value()), opts)
    {
      for i := 0 to |opts|
        invariant Value() == ApplyAll(old(Value()), opts[..i])
      {
        assert opts[..i + 1] == opts[..i] + [opts[i]];
        ApplyAllSnoc(old(Value()), opts[..i], opts[i]);
        Update(opts[i]);
      }
      assert opts[..|opts|] == opts;
    }
  }

  /** newOptions: a fresh record with the options applied, validated and
      defaulted in place; an error in place of each panic. */
  method NewOptions(opts: seq<Option>) returns (r: Result<Options>)
    ensures r.Err? ==> Built(opts) == Err(r.error)
    ensures r.Ok? ==> fresh(r.value) && Built(opts) == Ok(r.value.Value())
  {
    var o := new Options();
    o.Apply(opts);
    if |o.servers| <= 0 {
      return Err(MissingServers);
    }
    if o.interfaceName == "" {
      return Err(MissingInterfaceName);
    }
    if o.registryGroup == "" {
      o.registryGroup := DefaultRegistryGroup;
    }
    if o.sessionTimeout == 0 {
      o.sessionTimeout := DefaultSessionTimeout;
    }
    return Ok(o);
  }
}
