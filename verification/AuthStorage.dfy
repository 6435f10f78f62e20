/** Auth data kept in one of two browser stores by a "remember me" preference,
    and proved to look like one plain map. */
module AuthStorage {
  import opened Wrappers

  const AUTH_KEYS: seq<string> := ["accessToken", "refreshToken", "user"]
  const REMEMBER_KEY: string := "rememberMe"

  type Store = map<string, string>

  datatype Stores = Stores(local: Store, session: Store)

  function GetItem(s: Store, key: string): Option<string> {
    if key in s then Some(s[key]) else None
  }

  /** The preference defaults to true. */
  predicate Remembers(st: Stores) {
    GetItem(st.local, REMEMBER_KEY) != Some("false")
  }

  function Read(st: Stores, key: string): Option<string> {
    var (first, second) := if Remembers(st) then (st.local, st.session) else (st.session, st.local);
    if key in first then GetItem(first, key) else GetItem(second, key)
  }

  datatype Op =
    | Toggle(remember: bool)
    | Set(key: string, value: string)
    | Remove(key: string)
    | Clear
    | CloseTab

  /** `ok` says whether a `setItem` of the operation is accepted; a refused one changes nothing. */
  function Step(st: Stores, op: Op, ok: bool): Stores {
    match op
    case Toggle(remember) =>
      if ok then st.(local := st.local[REMEMBER_KEY := if remember then "true" else "false"]) else st
    case Set(key, value) =>
      if !ok then st
      else if Remembers(st) then Stores(st.local[key := value], st.session - {key})
      else Stores(st.local - {key}, st.session[key := value])
    case Remove(key) => Stores(st.local - {key}, st.session - {key})
    case Clear => Stores(st.local - AuthKeys(), st.session - AuthKeys())
    case CloseTab => st.(session := map[])
  }

  function AuthKeys(): set<string> {
    set k | k in AUTH_KEYS
  }

  class Browser {
    var localStorage: Store
    var sessionStorage: Store

    function View(): Stores
      reads this
    {
      Stores(localStorage, sessionStorage)
    }

    constructor (st: Stores)
      ensures View() == st && localStorage == st.local && sessionStorage == st.session
    {
      localStorage, sessionStorage := st.local, st.session;
    }

    method SetRememberMe(remember: bool, ok: bool)
      modifies this
      ensures View() == Step(old(View()), Toggle(remember), ok)
    {
      if ok {
        localStorage := localStorage[REMEMBER_KEY := if remember then "true" else "false"];
      }
    }

    method GetAuthItem(key: string) returns (value: Option<string>)
      ensures value == Read(View(), key)
    {
      var remember := REMEMBER_KEY !in localStorage || localStorage[REMEMBER_KEY] != "false";
      var store, other := sessionStorage, localStorage;
      if remember {
        store, other := localStorage, sessionStorage;
      }
      if key in store { return Some(store[key]); }
      value := if key in other then Some(other[key]) else None;
    }

    /** A refused write is an error for the caller and leaves both stores as they were. */
    method SetAuthItem(key: string, value: string, ok: bool) returns (stored: bool)
      modifies this
      ensures View() == Step(old(View()), Set(key, value), ok) && stored == ok
    {
      if !ok { return false; }
      if Remembers(View()) {
        localStorage := localStorage[key := value];
        sessionStorage := sessionStorage - {key};
      } else {
        sessionStorage := sessionStorage[key := value];
        localStorage := localStorage - {key};
      }
      stored := true;
    }

    method RemoveAuthItem(key: string)
      modifies this
      ensures View() == Step(old(View()), Remove(key), true)
    {
      localStorage := localStorage - {key};
      sessionStorage := sessionStorage - {key};
    }

    method ClearAuthData()
      modifies this
      ensures View() == Step(old(View()), Clear, true)
    {
      var i := 0;
      while i < |AUTH_KEYS|
        invariant 0 <= i <= |AUTH_KEYS|
        invariant View() == Stores(old(localStorage) - KeysBefore(i), old(sessionStorage) - KeysBefore(i))
      {
        RemoveAuthItem(AUTH_KEYS[i]);
        assert KeysBefore(i + 1) == KeysBefore(i) + {AUTH_KEYS[i]};
        i := i + 1;
      }
      assert KeysBefore(i) == AuthKeys();
    }
  }

  function KeysBefore(i: nat): set<string>
    requires i <= |AUTH_KEYS|
  {
    set k | k in AUTH_KEYS[..i]
  }

  // ----- One plain map ----------------------------------------------------------------------

  /** The items a user sees, each with the preference in force when it was last set. */
  datatype Plain = Plain(remembers: bool, items: map<string, (string, bool)>)

  function PlainStep(p: Plain, op: Op, ok: bool): Plain {
    match op
    case Toggle(remember) => if ok then p.(remembers := remember) else p
    case Set(key, value) => if ok then p.(items := p.items[key := (value, p.remembers)]) else p
    case Remove(key) => p.(items := p.items - {key})
    case Clear => p.(items := map[])
    case CloseTab => p.(items := map k | k in p.items && p.items[k].1 :: p.items[k])
  }

  /** Each auth key is in at most one store: the one its last preference chose. */
  ghost predicate Represents(st: Stores, p: Plain) {
    && p.remembers == Remembers(st)
    && p.items.Keys <= AuthKeys()
    && forall k :: k in AUTH_KEYS ==>
         && (k in p.items && p.items[k].1 <==> k in st.local)
         && (k in p.items && !p.items[k].1 <==> k in st.session)
         && (k in st.local ==> st.local[k] == p.items[k].0)
         && (k in st.session ==> st.session[k] == p.items[k].0)
  }

  /** Only auth keys are set and removed. */
  predicate AuthOp(op: Op) {
    match op
    case Set(key, _) => key in AUTH_KEYS
    case Remove(key) => key in AUTH_KEYS
    case _ => true
  }

  datatype Action = Action(op: Op, ok: bool)

  function Run(st: Stores, actions: seq<Action>): Stores
    decreases |actions|
  {
    if actions == [] then st else Run(Step(st, actions[0].op, actions[0].ok), actions[1..])
  }

  function PlainRun(p: Plain, actions: seq<Action>): Plain
    decreases |actions|
  {
    if actions == [] then p else PlainRun(PlainStep(p, actions[0].op, actions[0].ok), actions[1..])
  }

  lemma KeysAreDistinct()
    ensures REMEMBER_KEY !in AUTH_KEYS && REMEMBER_KEY !in AuthKeys()
  {
    assert REMEMBER_KEY != AUTH_KEYS[0] && REMEMBER_KEY != AUTH_KEYS[1] && REMEMBER_KEY != AUTH_KEYS[2];
  }

  lemma StepRefines(st: Stores, p: Plain, op: Op, ok: bool)
    requires Represents(st, p) && AuthOp(op)
    ensures Represents(Step(st, op, ok), PlainStep(p, op, ok))
  {
    hide AUTH_KEYS;
    KeysAreDistinct();
  }

  /** Over every run of toggles, sets, removes, clears and tab closings, no auth key is in both
      stores, and reading a key gives what one plain map gives: the toggles never show. A closed
      tab keeps exactly the keys whose last set was made with the preference on. */
  lemma {:induction false} LooksLikeOneMap(st: Stores, p: Plain, actions: seq<Action>, key: string)
    requires Represents(st, p) && key in AUTH_KEYS
    requires forall a :: a in actions ==> AuthOp(a.op)
    ensures Represents(Run(st, actions), PlainRun(p, actions))
    ensures !(key in Run(st, actions).local && key in Run(st, actions).session)
    ensures var items := PlainRun(p, actions).items;
      Read(Run(st, actions), key) == if key in items then Some(items[key].0) else None
    decreases |actions|
  {
    hide AUTH_KEYS;
    if actions != [] {
      assert actions[0] in actions;
      StepRefines(st, p, actions[0].op, actions[0].ok);
      LooksLikeOneMap(Step(st, actions[0].op, actions[0].ok), PlainStep(p, actions[0].op, actions[0].ok), actions[1..], key);
    }
  }

  /** Browsers with no auth data yet are represented by the empty map. */
  lemma EmptyIsRepresented(st: Stores)
    requires forall k :: k in AUTH_KEYS ==> k !in st.local && k !in st.session
    ensures Represents(st, Plain(Remembers(st), map[]))
  {
  }

  /** Stores that differ on a key they share cannot be one map: toggling shows. */
  lemma DuplicatesShow(st: Stores, key: string)
    requires key in AUTH_KEYS && key in st.local && key in st.session
    ensures Read(Step(st, Toggle(true), true), key) == Some(st.local[key])
    ensures Read(Step(st, Toggle(false), true), key) == Some(st.session[key])
    ensures Read(Step(st, Toggle(true), true), key) == Read(Step(st, Toggle(false), true), key)
       <==> st.local[key] == st.session[key]
  {
    hide AUTH_KEYS;
    KeysAreDistinct();
  }

  // ----- What each operation does to what is read ---------------------------------------------------

  /** Reading after an accepted set gives the value, after a removal nothing; a refused set, a toggle
      and operations on other keys change no read of an auth key. A clear takes the access token, the
      refresh token and the user, and nothing else; closing the tab keeps what was set with the
      preference on. */
  lemma ReadsFollowOperations(st: Stores, p: Plain, key: string, other: string, value: string, remember: bool)
    requires Represents(st, p) && key in AUTH_KEYS && other in AUTH_KEYS && key != other
    ensures Read(Step(st, Set(key, value), true), key) == Some(value)
    ensures Read(Step(st, Set(key, value), true), other) == Read(st, other)
    ensures Step(st, Set(key, value), false) == st && Step(st, Toggle(remember), false) == st
    ensures Read(Step(st, Remove(key), true), key) == None
    ensures Read(Step(st, Remove(key), true), other) == Read(st, other)
    ensures Read(Step(st, Toggle(remember), true), key) == Read(st, key)
    ensures Read(Step(st, Clear, true), key) == None
    ensures Read(Step(Step(st, Set(key, value), true), CloseTab, true), key) == (if Remembers(st) then Some(value) else None)
  {
    hide AUTH_KEYS;
    KeysAreDistinct();
  }

  /** The preference is what the last accepted toggle said, and on before any; it outlives every other
      operation, as does everything that is not auth data, but for what only the tab holds. */
  lemma TheRestStays(st: Stores, op: Op, ok: bool, key: string, remember: bool)
    requires AuthOp(op) && key !in ["accessToken", "refreshToken", "user"]
    ensures Remembers(Step(st, Toggle(remember), true)) == remember
    ensures GetItem(Step(st, Toggle(remember), true).local, "rememberMe") == Some(if remember then "true" else "false")
    ensures REMEMBER_KEY == "rememberMe" && (REMEMBER_KEY !in st.local ==> Remembers(st))
    ensures !op.Toggle? || key != "rememberMe" ==> GetItem(Step(st, op, ok).local, key) == GetItem(st.local, key)
    ensures GetItem(Step(st, op, ok).session, key) == if op.CloseTab? then None else GetItem(st.session, key)
    ensures !op.Toggle? ==> Remembers(Step(st, op, ok)) == Remembers(st)
  {
    KeysAreDistinct();
    assert key !in AUTH_KEYS && key !in AuthKeys();
  }

  /** The keys of auth data, spelt out. */
  lemma TheAuthKeys(key: string)
    ensures key in AUTH_KEYS <==> key == "accessToken" || key == "refreshToken" || key == "user"
  {
    assert "accessToken" == AUTH_KEYS[0] && "refreshToken" == AUTH_KEYS[1] && "user" == AUTH_KEYS[2];
  }
}
