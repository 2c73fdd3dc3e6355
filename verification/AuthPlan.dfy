/** The authentication configuration of a client and the plan built from it (src/SSH2Client.cpp). */
module AuthPlan {
  import opened Ssh2Types

  const EXPLICIT_FIRST := 0
  const PROVIDER_FIRST := 1

  const FALLBACK_DISABLED := 0
  const FALLBACK_AGENT := 1
  const FALLBACK_DEFAULT_KEYS := 2
  const FALLBACK_AGENT_AND_DEFAULT_KEYS := 3

  datatype Settings = Settings(
    user: string, password: string, keysPub: string, keysPriv: string,
    privData: string, pubData: string, keysPassphrase: string,
    providerConfigured: bool, authOrder: int, fallback: int, useAgent: bool,
    explicitKeyFiles: bool, explicitKeyData: bool, autoKeyFiles: bool)

  /** The account the process runs as, as getpwuid() reports it. */
  datatype Account = Account(name: string, home: string)

  // ---- configuration -------------------------------------------------------------------------------------------

  function Initial(user: string, password: string): Settings {
    Settings(user, password, "", "", "", "", "", false, EXPLICIT_FIRST, FALLBACK_DISABLED, true, false, false, false)
  }

  /** The settings a client starts with; privOk and pubOk say whether the default key files may be and can be read. */
  function Discovered(s: Settings, account: Option<Account>, filesystem: bool, privOk: bool, pubOk: bool): Settings {
    if account.None? || !(s.user == "" || s.user == account.value.name) then s
    else if filesystem && !(privOk && pubOk) then s
    else
      var t := if !filesystem then s
               else s.(keysPriv := account.value.home + "/.ssh/id_rsa",
                       keysPub := account.value.home + "/.ssh/id_rsa.pub", autoKeyFiles := true);
      t.(user := if s.user == "" then account.value.name else s.user)
  }

  function WithKeys(s: Settings, priv: string, pub: string, explicit: bool): Settings {
    s.(keysPriv := priv, keysPub := pub, explicitKeyFiles := explicit, autoKeyFiles := false)
  }

  /** The effect of setKeys(); the file checks come in the order the code makes them. */
  function KeysSet(s: Settings, priv: string, pub: Option<string>, privOk: bool, pubOk: bool): Settings {
    var pubPath := if pub.Some? then pub.value else priv + ".pub";
    if priv == "" || !privOk || !pubOk then WithKeys(s, "", "", false)
    else WithKeys(s, priv, pubPath, pubPath != "")
  }

  datatype Change =
    | SetUser(user: string)
    | SetPassword(password: string)
    | SetKeys(priv: string, pub: Option<string>, privOk: bool, pubOk: bool)
    | SetKeysFromData(privData: string, pubData: Option<string>, passphrase: Option<string>)
    | SetUseAgent(enable: bool)
    | SetProvider(configured: bool)
    | SetAuthOrder(order: int)
    | SetFallback(policy: int)

  /** What a setter does to the settings when it is not refused because the client is connected or connecting. */
  function Changed(s: Settings, c: Change): Settings {
    match c
    case SetUser(u) => s.(user := u)
    case SetPassword(p) => s.(password := p)
    case SetKeys(priv, pub, privOk, pubOk) => KeysSet(s, priv, pub, privOk, pubOk)
    case SetKeysFromData(priv, pub, pass) =>
      s.(privData := priv, pubData := if pub.Some? then pub.value else "",
         keysPassphrase := if pass.Some? then pass.value else "", explicitKeyData := true)
    case SetUseAgent(enable) => s.(useAgent := enable)
    case SetProvider(configured) => s.(providerConfigured := configured)
    case SetAuthOrder(order) => if order == EXPLICIT_FIRST || order == PROVIDER_FIRST then s.(authOrder := order) else s
    case SetFallback(policy) => if 0 <= policy <= 3 then s.(fallback := policy) else s
  }

  function AllChanged(s: Settings, changes: seq<Change>): Settings
    decreases |changes|
  {
    if changes == [] then s else AllChanged(Changed(s, changes[0]), changes[1..])
  }

  predicate Consistent(s: Settings) {
    && !(s.explicitKeyFiles && s.autoKeyFiles)
    && (s.explicitKeyFiles || s.autoKeyFiles ==> s.keysPriv != "" && s.keysPub != "")
    && s.authOrder in {EXPLICIT_FIRST, PROVIDER_FIRST}
    && 0 <= s.fallback <= 3
  }

  lemma ChangeKeepsConsistent(s: Settings, c: Change)
    requires Consistent(s)
    ensures Consistent(Changed(s, c))
  {
  }

  lemma {:induction false} ChangesKeepConsistent(s: Settings, changes: seq<Change>)
    requires Consistent(s)
    ensures Consistent(AllChanged(s, changes))
    decreases |changes|
  {
    if changes != [] {
      ChangeKeepsConsistent(s, changes[0]);
      ChangesKeepConsistent(Changed(s, changes[0]), changes[1..]);
    }
  }

  /** Whatever a client is configured with through its constructor and setters, explicit and discovered keys are never
      both in force.
   */
  lemma ReachableConsistent(user: string, password: string, account: Option<Account>, filesystem: bool,
                            privOk: bool, pubOk: bool, changes: seq<Change>)
    ensures Consistent(AllChanged(Discovered(Initial(user, password), account, filesystem, privOk, pubOk), changes))
  {
    ChangesKeepConsistent(Discovered(Initial(user, password), account, filesystem, privOk, pubOk), changes);
  }

  // ---- the plan ------------------------------------------------------------------------------------------------

  /** The methods the server's list names; a missing list names none. */
  datatype Advertised = Advertised(publickey: bool, password: bool, keyboardInteractive: bool)

  function Advertises(list: Option<string>): Advertised {
    if list.None? then Advertised(false, false, false)
    else Advertised(IsSubstring("publickey", list.value), IsSubstring("password", list.value),
                    IsSubstring("keyboard-interactive", list.value))
  }

  function FileAttempt(s: Settings): Attempt {
    Attempt(PubkeyFile, s.keysPub, s.keysPriv, s.password)
  }

  function MemoryAttempt(s: Settings): Attempt {
    Attempt(PubkeyMemory, s.pubData, s.privData, if s.keysPassphrase == "" then s.password else s.keysPassphrase)
  }

  function Bare(kind: Kind): Attempt {
    Attempt(kind, "", "", "")
  }

  predicate AgentFallback(s: Settings) {
    !s.providerConfigured || s.fallback in {FALLBACK_AGENT, FALLBACK_AGENT_AND_DEFAULT_KEYS}
  }

  predicate DefaultKeysFallback(s: Settings) {
    !s.providerConfigured || s.fallback in {FALLBACK_DEFAULT_KEYS, FALLBACK_AGENT_AND_DEFAULT_KEYS}
  }

  predicate FilesGiven(s: Settings) {
    s.keysPriv != "" && s.keysPub != ""
  }

  /** The attempt a kind stands for in the plan. */
  function AttemptOf(s: Settings, kind: Kind): Attempt {
    match kind
    case PubkeyFile => FileAttempt(s)
    case PubkeyMemory => MemoryAttempt(s)
    case _ => Bare(kind)
  }

  /** Which kinds of attempts a connection may make. */
  predicate OfferedKind(s: Settings, memoryKeys: bool, ad: Advertised, kind: Kind) {
    match kind
    case Provider => s.providerConfigured
    case Agent => s.useAgent && AgentFallback(s) && ad.publickey
    case PubkeyMemory =>
      memoryKeys && s.privData != "" && ad.publickey && (s.providerConfigured ==> s.explicitKeyData)
    case PubkeyFile =>
      && FilesGiven(s) && ad.publickey
      && (s.providerConfigured ==> s.explicitKeyFiles || (s.autoKeyFiles && DefaultKeysFallback(s)))
    case Password => s.password != "" && ad.password
    case KeyboardInteractive => s.password != "" && ad.keyboardInteractive
  }

  predicate Offered(s: Settings, memoryKeys: bool, ad: Advertised, a: Attempt) {
    a == AttemptOf(s, a.kind) && OfferedKind(s, memoryKeys, ad, a.kind)
  }

  /** The order attempts are made in. */
  function Precedence(s: Settings, kind: Kind): nat {
    match kind
    case Provider => if s.authOrder == PROVIDER_FIRST then 0 else 3
    case PubkeyMemory => if s.providerConfigured then 1 else 5
    case PubkeyFile => if s.providerConfigured && s.explicitKeyFiles then 2 else 6
    case Agent => 4
    case Password => 7
    case KeyboardInteractive => 8
  }

  /** The plan is the ordered list of exactly the attempts on offer; there is only one such list (see UniquePlan). */
  ghost predicate IsPlan(s: Settings, memoryKeys: bool, ad: Advertised, plan: seq<Attempt>) {
    && (forall a :: a in plan <==> Offered(s, memoryKeys, ad, a))
    && forall i, j | 0 <= i < j < |plan| :: Precedence(s, plan[i].kind) < Precedence(s, plan[j].kind)
  }

  lemma {:induction false} OrderedSameMembers(s: Settings, p: seq<Attempt>, q: seq<Attempt>)
    requires forall a :: a in p <==> a in q
    requires forall i, j | 0 <= i < j < |p| :: Precedence(s, p[i].kind) < Precedence(s, p[j].kind)
    requires forall i, j | 0 <= i < j < |q| :: Precedence(s, q[i].kind) < Precedence(s, q[j].kind)
    ensures p == q
    decreases |p|
  {
    assert q != [] ==> q[0] in q;
    if p != [] {
      assert p[0] in q;
      var i :| 0 <= i < |q| && q[i] == p[0];
      assert q[0] in p;
      var j :| 0 <= j < |p| && p[j] == q[0];
      assert p[0] == q[0];
      forall a
        ensures a in p[1..] <==> a in q[1..]
      {
        if a in p[1..] { assert a in q && a != q[0]; }
        if a in q[1..] { assert a in p && a != p[0]; }
      }
      OrderedSameMembers(s, p[1..], q[1..]);
      assert p == [p[0]] + p[1..] && q == [q[0]] + q[1..];
    }
  }

  /** A configuration and a method list determine the plan. */
  lemma UniquePlan(s: Settings, memoryKeys: bool, ad: Advertised, p: seq<Attempt>, q: seq<Attempt>)
    requires IsPlan(s, memoryKeys, ad, p) && IsPlan(s, memoryKeys, ad, q)
    ensures p == q
  {
    forall a
      ensures a in p <==> a in q
    {
      assert a in p <==> Offered(s, memoryKeys, ad, a);
      assert a in q <==> Offered(s, memoryKeys, ad, a);
    }
    OrderedSameMembers(s, p, q);
  }

  /** At most one top-level attempt of each kind, exactly one PROVIDER marker if and only if a provider is configured,
      and nothing after a password attempt but another kind of password attempt.
   */
  lemma PlanShape(s: Settings, memoryKeys: bool, ad: Advertised, plan: seq<Attempt>)
    requires IsPlan(s, memoryKeys, ad, plan)
    ensures forall i, j | 0 <= i < j < |plan| :: plan[i].kind != plan[j].kind
    ensures s.providerConfigured <==> exists i | 0 <= i < |plan| :: plan[i].kind.Provider?
    ensures s.providerConfigured ==> forall a | a in plan && a.kind.Agent? :: AgentFallback(s)
    ensures s.providerConfigured && !s.explicitKeyFiles
            ==> forall a | a in plan && a.kind.PubkeyFile? :: s.autoKeyFiles && DefaultKeysFallback(s)
    ensures forall i, j | 0 <= i < j < |plan| && plan[i].kind.Password? :: plan[j].kind.KeyboardInteractive?
    ensures forall i | 0 <= i < |plan| && plan[i].kind.KeyboardInteractive? :: i == |plan| - 1
  {
    if s.providerConfigured {
      assert Offered(s, memoryKeys, ad, Bare(Provider));
      assert Bare(Provider) in plan;
    }
    forall i | 0 <= i < |plan|
      ensures Offered(s, memoryKeys, ad, plan[i])
    {
      assert plan[i] in plan;
    }
    if !s.providerConfigured {
      forall i | 0 <= i < |plan|
        ensures !plan[i].kind.Provider?
      {
        assert Offered(s, memoryKeys, ad, plan[i]);
      }
    }
    forall i, j | 0 <= i < j < |plan| && plan[i].kind.Password?
      ensures plan[j].kind.KeyboardInteractive?
    {
      assert Precedence(s, plan[i].kind) < Precedence(s, plan[j].kind);
    }
    forall i | 0 <= i < |plan| && plan[i].kind.KeyboardInteractive?
      ensures i == |plan| - 1
    {
      assert i < |plan| - 1 ==> Precedence(s, plan[i].kind) < Precedence(s, plan[|plan| - 1].kind);
    }
  }

  /** The configuration fields of SSH2Client with the setters that change them. */
  class Configuration {
    var settings: Settings
    var sessionActive: bool      // connecting, reserved by a poll operation, or with a session
    var connectInProgress: bool

    constructor (user: string, password: string, account: Option<Account>, filesystem: bool,
                 privOk: bool, pubOk: bool)
      ensures settings == Discovered(Initial(user, password), account, filesystem, privOk, pubOk)
      ensures Consistent(settings) && !sessionActive && !connectInProgress
    {
      settings := Initial(user, password);
      sessionActive, connectInProgress := false, false;
      new;
      if account.Some? && (user == "" || user == account.value.name) {
        if filesystem {
          settings := settings.(keysPriv := account.value.home + "/.ssh/id_rsa");
          if !privOk {
            settings := settings.(keysPriv := "");
            return;
          }
          settings := settings.(keysPub := account.value.home + "/.ssh/id_rsa.pub");
          if !pubOk {
            settings := settings.(keysPriv := "", keysPub := "");
            return;
          }
          settings := settings.(autoKeyFiles := true);
        }
        if settings.user == "" {
          settings := settings.(user := account.value.name);
        }
      }
    }

    /** Sets explicit key files; the checks of the files are outcomes of the sandbox and the file system. */
    method SetKeyFiles(priv: string, pub: Option<string>, privOk: bool, pubOk: bool) returns (refused: bool)
      modifies `settings
      ensures refused == old(sessionActive)
      ensures settings == if refused then old(settings) else Changed(old(settings), SetKeys(priv, pub, privOk, pubOk))
      ensures old(Consistent(settings)) ==> Consistent(settings)
    {
      if sessionActive { return true; }
      refused := false;
      settings := settings.(keysPriv := "", keysPub := "", explicitKeyFiles := false, autoKeyFiles := false);
      if priv != "" {
        settings := settings.(keysPriv := priv);
        if !privOk {
          settings := settings.(keysPriv := "");
          return;
        }
        settings := settings.(keysPub := if pub.Some? then pub.value else priv + ".pub");
        if !pubOk {
          settings := settings.(keysPriv := "", keysPub := "");
          return;
        }
      }
      if settings.keysPriv != "" && settings.keysPub != "" {
        settings := settings.(explicitKeyFiles := true);
      }
    }

    /** The assignments of setKeysFromData(). */
    method SetKeyData(privData: string, pubData: Option<string>, passphrase: Option<string>)
      modifies `settings
      ensures settings == Changed(old(settings), SetKeysFromData(privData, pubData, passphrase))
    {
      settings := settings.(privData := privData);
      if pubData.Some? {
        settings := settings.(pubData := pubData.value);
      } else {
        settings := settings.(pubData := "");
      }
      if passphrase.Some? {
        settings := settings.(keysPassphrase := passphrase.value);
      } else {
        settings := settings.(keysPassphrase := "");
      }
      settings := settings.(explicitKeyData := true);
    }

    /** The other setters, each with its own refusal: the order and the fallback policy can be set while connected, but
        not to values that do not exist.
     */
    method Change(c: Change) returns (refused: bool)
      requires !c.SetKeys?
      modifies `settings
      ensures refused <==> if c.SetAuthOrder? || c.SetFallback? then old(connectInProgress) else old(sessionActive)
      ensures settings == if refused then old(settings) else Changed(old(settings), c)
      ensures old(Consistent(settings)) ==> Consistent(settings)
    {
      refused := false;
      match c {
        case SetUser(user) =>
          if sessionActive { return true; }
          settings := settings.(user := user);
        case SetPassword(password) =>
          if sessionActive { return true; }
          settings := settings.(password := password);
        case SetKeysFromData(privData, pubData, passphrase) =>
          if sessionActive { return true; }
          SetKeyData(privData, pubData, passphrase);
        case SetUseAgent(enable) =>
          if sessionActive { return true; }
          settings := settings.(useAgent := enable);
        case SetProvider(configured) =>
          if sessionActive { return true; }
          settings := settings.(providerConfigured := configured);
        case SetAuthOrder(order) =>
          if connectInProgress { return true; }
          if order != EXPLICIT_FIRST && order != PROVIDER_FIRST { return false; }
          settings := settings.(authOrder := order);
        case SetFallback(policy) =>
          if connectInProgress { return true; }
          if policy != FALLBACK_DISABLED && policy != FALLBACK_AGENT && policy != FALLBACK_DEFAULT_KEYS
             && policy != FALLBACK_AGENT_AND_DEFAULT_KEYS { return false; }
          settings := settings.(fallback := policy);
      }
    }

    /** A sequence of setter calls on a client that is not connected. */
    method ApplyAll(changes: seq<Change>)
      requires !sessionActive && !connectInProgress && Consistent(settings)
      modifies `settings
      ensures settings == AllChanged(old(settings), changes) && Consistent(settings)
    {
      assert changes[0..] == changes;
      for i := 0 to |changes|
        invariant AllChanged(settings, changes[i..]) == AllChanged(old(settings), changes) && Consistent(settings)
      {
        assert changes[i..][1..] == changes[i + 1..];
        var c := changes[i];
        if c.SetKeys? {
          var _ := SetKeyFiles(c.priv, c.pub, c.privOk, c.pubOk);
        } else {
          var _ := Change(c);
        }
      }
    }
  }

  /** The attempts on offer with a precedence below n, in order. */
  ghost predicate PlanBelow(s: Settings, memoryKeys: bool, ad: Advertised, plan: seq<Attempt>, n: nat) {
    && (forall a :: a in plan <==> Offered(s, memoryKeys, ad, a) && Precedence(s, a.kind) < n)
    && forall i, j | 0 <= i < j < |plan| :: Precedence(s, plan[i].kind) < Precedence(s, plan[j].kind)
  }

  /** The next push: no other kind on offer has a precedence from n to m - 1. */
  method Push(s: Settings, memoryKeys: bool, ad: Advertised, plan: seq<Attempt>, ghost n: nat, ghost m: nat,
              kind: Kind, wanted: bool)
    returns (longer: seq<Attempt>)
    requires PlanBelow(s, memoryKeys, ad, plan, n) && n < m
    requires wanted <==> OfferedKind(s, memoryKeys, ad, kind) && n <= Precedence(s, kind) < m
    requires forall k | k != kind && n <= Precedence(s, k) < m :: !OfferedKind(s, memoryKeys, ad, k)
    ensures PlanBelow(s, memoryKeys, ad, longer, m)
  {
    longer := plan;
    if wanted {
      var a := AttemptOf(s, kind);
      longer := plan + [a];
      assert Offered(s, memoryKeys, ad, a);
      forall i | 0 <= i < |plan|
        ensures Precedence(s, plan[i].kind) < Precedence(s, kind)
      {
        assert plan[i] in plan;
      }
    }
  }

  /** The marker and the explicit keys of a client with an identity provider. */
  method PushExplicitAttempts(s: Settings, memoryKeys: bool, ad: Advertised) returns (plan: seq<Attempt>)
    requires Consistent(s) && s.providerConfigured
    ensures PlanBelow(s, memoryKeys, ad, plan, 4)
  {
    var keyData := ad.publickey && s.privData != "" && memoryKeys;
    plan := Push(s, memoryKeys, ad, [], 0, 1, Provider, s.authOrder == PROVIDER_FIRST);
    plan := Push(s, memoryKeys, ad, plan, 1, 2, PubkeyMemory, s.explicitKeyData && keyData);
    plan := Push(s, memoryKeys, ad, plan, 2, 3, PubkeyFile, ad.publickey && s.explicitKeyFiles && FilesGiven(s));
    plan := Push(s, memoryKeys, ad, plan, 3, 4, Provider, s.authOrder != PROVIDER_FIRST);
  }

  /** The pushes of a client with an identity provider, up to the password attempts. */
  method PushProviderAttempts(s: Settings, memoryKeys: bool, ad: Advertised) returns (plan: seq<Attempt>)
    requires Consistent(s) && s.providerConfigured
    ensures PlanBelow(s, memoryKeys, ad, plan, 7)
  {
    plan := PushExplicitAttempts(s, memoryKeys, ad);
    plan := Push(s, memoryKeys, ad, plan, 4, 5, Agent, s.useAgent && AgentFallback(s) && ad.publickey);
    plan := Push(s, memoryKeys, ad, plan, 5, 7, PubkeyFile,
                 DefaultKeysFallback(s) && ad.publickey && s.autoKeyFiles && FilesGiven(s));
  }

  /** The pushes of a client without an identity provider, up to the password attempts. */
  method PushOwnAttempts(s: Settings, memoryKeys: bool, ad: Advertised) returns (plan: seq<Attempt>)
    requires Consistent(s) && !s.providerConfigured
    ensures PlanBelow(s, memoryKeys, ad, plan, 7)
  {
    var keyData := ad.publickey && s.privData != "" && memoryKeys;
    plan := Push(s, memoryKeys, ad, [], 0, 5, Agent, s.useAgent && ad.publickey);
    plan := Push(s, memoryKeys, ad, plan, 5, 6, PubkeyMemory, keyData);
    plan := Push(s, memoryKeys, ad, plan, 6, 7, PubkeyFile, ad.publickey && FilesGiven(s));
  }

  /** The pushes of buildAuthPlanUnlocked(), in the order the code makes them. */
  method BuildPlan(s: Settings, memoryKeys: bool, ad: Advertised) returns (plan: seq<Attempt>)
    requires Consistent(s)
    ensures IsPlan(s, memoryKeys, ad, plan)
  {
    if s.providerConfigured {
      plan := PushProviderAttempts(s, memoryKeys, ad);
    } else {
      plan := PushOwnAttempts(s, memoryKeys, ad);
    }
    plan := Push(s, memoryKeys, ad, plan, 7, 8, Password, s.password != "" && ad.password);
    plan := Push(s, memoryKeys, ad, plan, 8, 9, KeyboardInteractive, s.password != "" && ad.keyboardInteractive);
  }
}
