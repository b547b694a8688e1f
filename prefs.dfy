/**
 * The typed preference registry. A `SharedStore` is the key-value store the
 * platform persists; `Prefs` keeps a registry from keys to the
 * `ManagedPreference` objects declared over that store, each of which reads
 * and writes its own key, and forwards store changes to its listeners.
 *
 * Reads and writes are specified by functions on the store's map
 * (`PlainRead`, `PlainWrite`, `StringLikeRead`, `StringLikeWrite`); the
 * lemmas relate them (get after set, other keys untouched), and the methods
 * of the classes are proved against them.
 */
module Preferences {
  import opened Sequences

  newtype Int32 = x: int | -0x8000_0000 <= x < 0x8000_0000
  newtype Int64 = x: int | -0x8000_0000_0000_0000 <= x < 0x8000_0000_0000_0000

  datatype Option<T> = None | Some(value: T)

  /**
   * A value held in the store or by a preference. A float is kept as its
   * 32 bits; `ObjectValue` stands for any other object (an enum constant,
   * say), named by its class and its text.
   */
  datatype Value =
    | BoolValue(b: bool)
    | LongValue(l: Int64)
    | FloatValue(bits: bv32)
    | IntValue(i: Int32)
    | StringValue(s: string)
    | StringSetValue(strings: set<string>)
    | ObjectValue(className: string, name: string)

  /** The runtime class of a value, which a preference's type is checked against. */
  datatype Kind = BoolKind | LongKind | FloatKind | IntKind | StringKind | StringSetKind | ObjectKind(className: string)

  function KindOf(v: Value): Kind {
    match v
    case BoolValue(_) => BoolKind
    case LongValue(_) => LongKind
    case FloatValue(_) => FloatKind
    case IntValue(_) => IntKind
    case StringValue(_) => StringKind
    case StringSetValue(_) => StringSetKind
    case ObjectValue(c, _) => ObjectKind(c)
  }

  /** The kinds a plain preference's setter writes to the store; any other value is dropped. */
  function Storable(v: Value): (r: bool)
    ensures r <==> KindOf(v) in {BoolKind, LongKind, FloatKind, IntKind, StringKind}
  {
    v.BoolValue? || v.LongValue? || v.FloatValue? || v.IntValue? || v.StringValue?
  }

  /** A value's conversion to and from the string the store holds for it. */
  datatype Codec = Codec(encode: Value -> string, decode: string -> Option<Value>)

  /** `c` gives `v` back from its own encoding. */
  predicate RoundTrips(c: Codec, v: Value) {
    c.decode(c.encode(v)) == Some(v)
  }

  /** The outcome of reading a preference. */
  datatype ReadResult =
    | Found(value: Value)
    /** The stored value is not of the preference's type. */
    | ClassCastFailure(found: Value)
    /** A string-like preference found something it cannot decode. */
    | DecodeFailure(raw: Value)

  /** Reading a plain preference: the stored value, or the default when the key is absent, cast to the preference's type. */
  function PlainRead(entries: map<string, Value>, key: string, default: Value, kind: Kind): (r: ReadResult)
    requires KindOf(default) == kind
    ensures key !in entries ==> r == Found(default)
    ensures key in entries && KindOf(entries[key]) == kind ==> r == Found(entries[key])
    ensures key in entries && KindOf(entries[key]) != kind ==> r == ClassCastFailure(entries[key])
    ensures !r.DecodeFailure?
  {
    var v := if key in entries then entries[key] else default;
    if KindOf(v) == kind then Found(v) else ClassCastFailure(v)
  }

  /** Writing a plain preference: a storable value replaces the entry at `key`; anything else changes nothing. */
  function PlainWrite(entries: map<string, Value>, key: string, v: Value): (r: map<string, Value>)
    ensures Storable(v) ==> key in r && r[key] == v
    ensures !Storable(v) ==> r == entries
    ensures r.Keys == entries.Keys + (if Storable(v) then {key} else {})
    ensures forall k :: k in entries && k != key ==> r[k] == entries[k]
  {
    if Storable(v) then entries[key := v] else entries
  }

  /**
   * Reading a string-like preference: the default when the key is absent;
   * otherwise the stored value must be a string the codec decodes.
   */
  function StringLikeRead(entries: map<string, Value>, key: string, default: Value, codec: Codec): (r: ReadResult)
    ensures key !in entries ==> r == Found(default)
    ensures key in entries ==> (r.Found? <==> entries[key].StringValue? && codec.decode(entries[key].s).Some?)
    ensures r.Found? && key in entries ==> Some(r.value) == codec.decode(entries[key].s)
    ensures r.DecodeFailure? ==> key in entries && r.raw == entries[key]
    ensures !r.ClassCastFailure?
  {
    if key !in entries then Found(default)
    else
      var raw := entries[key];
      if raw.StringValue? && codec.decode(raw.s).Some? then Found(codec.decode(raw.s).value)
      else DecodeFailure(raw)
  }

  /** Writing a string-like preference: the encoding replaces the entry at `key`. */
  function StringLikeWrite(entries: map<string, Value>, key: string, v: Value, codec: Codec): (r: map<string, Value>)
    ensures key in r && r[key] == StringValue(codec.encode(v))
    ensures r.Keys == entries.Keys + {key}
    ensures forall k :: k in entries && k != key ==> r[k] == entries[k]
  {
    entries[key := StringValue(codec.encode(v))]
  }

  /** Get after set on a plain preference gives the value set exactly when it is storable. */
  lemma PlainReadAfterWrite(entries: map<string, Value>, key: string, default: Value, v: Value)
    requires KindOf(v) == KindOf(default)
    ensures Storable(v) ==> PlainRead(PlainWrite(entries, key, v), key, default, KindOf(v)) == Found(v)
    ensures !Storable(v) ==> PlainRead(PlainWrite(entries, key, v), key, default, KindOf(v)) == PlainRead(entries, key, default, KindOf(v))
  {
  }

  /** Writing one key leaves every read of another key as it was. */
  lemma PlainWriteFrame(entries: map<string, Value>, key: string, v: Value, other: string, default: Value, kind: Kind, codec: Codec)
    requires other != key && KindOf(default) == kind
    ensures PlainRead(PlainWrite(entries, key, v), other, default, kind) == PlainRead(entries, other, default, kind)
    ensures StringLikeRead(PlainWrite(entries, key, v), other, default, codec) == StringLikeRead(entries, other, default, codec)
  {
    var after := PlainWrite(entries, key, v);
    assert other in after <==> other in entries;
  }

  /**
   * Get after set on a string-like preference gives the value back whenever
   * the codec round-trips it, and fails when the codec cannot decode its own
   * encoding.
   */
  lemma StringLikeReadAfterWrite(entries: map<string, Value>, key: string, default: Value, v: Value, codec: Codec)
    ensures RoundTrips(codec, v) ==> StringLikeRead(StringLikeWrite(entries, key, v, codec), key, default, codec) == Found(v)
    ensures codec.decode(codec.encode(v)).None? ==>
      StringLikeRead(StringLikeWrite(entries, key, v, codec), key, default, codec) == DecodeFailure(StringValue(codec.encode(v)))
  {
  }

  /** Writing one string-like key leaves every read of another key as it was. */
  lemma StringLikeWriteFrame(entries: map<string, Value>, key: string, v: Value, codec: Codec, other: string, default: Value, kind: Kind)
    requires other != key && KindOf(default) == kind
    ensures PlainRead(StringLikeWrite(entries, key, v, codec), other, default, kind) == PlainRead(entries, other, default, kind)
    ensures StringLikeRead(StringLikeWrite(entries, key, v, codec), other, default, codec) == StringLikeRead(entries, other, default, codec)
  {
    var after := StringLikeWrite(entries, key, v, codec);
    assert other in after <==> other in entries;
  }

  /**
   * A value stored under a string-like key by a plain write of another type
   * is not a string, and reading the string-like preference then fails.
   */
  lemma NonStringBreaksStringLike(entries: map<string, Value>, key: string, default: Value, v: Value, codec: Codec)
    requires Storable(v) && !v.StringValue?
    ensures StringLikeRead(PlainWrite(entries, key, v), key, default, codec) == DecodeFailure(v)
  {
  }

  /** Something that wants to hear when a preference changes; it is known by its identity. */
  class ChangeListener {
    constructor ()
    {
    }
  }

  /** The platform's persistent key-value store, and the registries it notifies of changes. */
  class SharedStore {
    var entries: map<string, Value>
    var changeListeners: set<Prefs>

    constructor (entries: map<string, Value>)
      ensures this.entries == entries && changeListeners == {}
    {
      this.entries := entries;
      changeListeners := {};
    }
  }

  /**
   * A preference over one key of the store. A plain preference has no
   * codec and stores its value as is; a string-like one stores the
   * encoding its codec gives.
   */
  class ManagedPreference {
    const store: SharedStore
    const key: string
    const defaultValue: Value
    /** The preference's type: that of its default. */
    const kind: Kind
    const codec: Option<Codec>
    var listeners: set<ChangeListener>

    constructor (store: SharedStore, key: string, defaultValue: Value, codec: Option<Codec>)
      ensures this.store == store && this.key == key && this.defaultValue == defaultValue
      ensures kind == KindOf(defaultValue) && this.codec == codec && listeners == {}
    {
      this.store := store;
      this.key := key;
      this.defaultValue := defaultValue;
      kind := KindOf(defaultValue);
      this.codec := codec;
      listeners := {};
    }

    /** The current value, as the store gives it. */
    method Get() returns (r: ReadResult)
      requires kind == KindOf(defaultValue)
      ensures codec.None? ==> r == PlainRead(store.entries, key, defaultValue, kind)
      ensures codec.Some? ==> r == StringLikeRead(store.entries, key, defaultValue, codec.value)
    {
      r := match codec
        case None => PlainRead(store.entries, key, defaultValue, kind)
        case Some(c) => StringLikeRead(store.entries, key, defaultValue, c);
    }

    /** Sets the value: only this preference's key of the store changes. */
    method Set(v: Value)
      requires KindOf(v) == kind
      modifies store`entries
      ensures codec.None? ==> store.entries == PlainWrite(old(store.entries), key, v)
      ensures codec.Some? ==> store.entries == StringLikeWrite(old(store.entries), key, v, codec.value)
    {
      store.entries := match codec
        case None => PlainWrite(store.entries, key, v)
        case Some(c) => StringLikeWrite(store.entries, key, v, c);
    }

    method RegisterOnChangeListener(listener: ChangeListener)
      modifies this`listeners
      ensures listeners == old(listeners) + {listener}
    {
      listeners := listeners + {listener};
    }

    method UnregisterOnChangeListener(listener: ChangeListener)
      modifies this`listeners
      ensures listeners == old(listeners) - {listener}
    {
      listeners := listeners - {listener};
    }

    /** Calls every listener once, in some order; the calls made are returned. */
    method FireChange() returns (calls: seq<ChangeListener>)
      ensures forall l :: l in calls <==> l in listeners
      ensures forall i, j :: 0 <= i < j < |calls| ==> calls[i] != calls[j]
      ensures |calls| == |listeners|
    {
      calls := [];
      var pending := listeners;
      while pending != {}
        invariant pending <= listeners
        invariant forall l :: l in calls <==> l in listeners && l !in pending
        invariant forall i, j :: 0 <= i < j < |calls| ==> calls[i] != calls[j]
        invariant |calls| + |pending| == |listeners|
        decreases |pending|
      {
        var l :| l in pending;
        calls := calls + [l];
        pending := pending - {l};
      }
    }
  }

  /** Registering the same listener twice leaves it in the set once. */
  method RegisterTwice(p: ManagedPreference, l: ChangeListener)
    modifies p`listeners
    ensures p.listeners == old(p.listeners) + {l}
  {
    p.RegisterOnChangeListener(l);
    ghost var once := p.listeners;
    p.RegisterOnChangeListener(l);
    assert p.listeners == once;
  }

  datatype PrefError =
    /** A preference is declared over a key that already has one. */
    | AlreadyDefined(key: string)
    /** The registry is asked for before it was created. */
    | NotInitialised

  datatype Result<T> = Success(value: T) | Failure(error: PrefError)

  /** The store keys the seven preferences of the registry are declared over. */
  datatype PrefKeys = PrefKeys(
    firstRun: string,
    ignoreSystemCursor: string,
    hideKeyConfig: string,
    buttonHapticFeedback: string,
    clipboard: string,
    clipboardLimit: string,
    expandableCandidateStyle: string)

  function KeyList(keys: PrefKeys): seq<string> {
    [keys.firstRun, keys.ignoreSystemCursor, keys.hideKeyConfig, keys.buttonHapticFeedback,
     keys.clipboard, keys.clipboardLimit, keys.expandableCandidateStyle]
  }

  /** The registry of the preferences declared over one store. */
  class Prefs {
    const sharedPreferences: SharedStore
    var managedPreferences: map<string, ManagedPreference>

    /** Every registered preference is over its own key of this registry's store, with a type that fits its default. */
    ghost predicate Valid()
      reads this
    {
      forall k :: k in managedPreferences ==>
        managedPreferences[k].key == k && managedPreferences[k].store == sharedPreferences &&
        managedPreferences[k].kind == KindOf(managedPreferences[k].defaultValue)
    }

    /** An empty registry; the seven preferences are declared by `Declare`. */
    constructor (sharedPreferences: SharedStore)
      ensures this.sharedPreferences == sharedPreferences && managedPreferences == map[]
      ensures Valid()
    {
      this.sharedPreferences := sharedPreferences;
      managedPreferences := map[];
    }

    /** Declares a plain preference over `key`, unless the key already has one. */
    method Preference(key: string, defaultValue: Value) returns (r: Result<ManagedPreference>)
      requires Valid()
      modifies this`managedPreferences
      ensures Valid()
      ensures key in old(managedPreferences) ==>
        r == Failure(AlreadyDefined(key)) && managedPreferences == old(managedPreferences)
      ensures key !in old(managedPreferences) ==>
        r.Success? && fresh(r.value) && managedPreferences == old(managedPreferences)[key := r.value] &&
        r.value.key == key && r.value.store == sharedPreferences && r.value.defaultValue == defaultValue &&
        r.value.codec.None? && r.value.listeners == {}
    {
      if key in managedPreferences {
        return Failure(AlreadyDefined(key));
      }
      var p := new ManagedPreference(sharedPreferences, key, defaultValue, None);
      managedPreferences := managedPreferences[key := p];
      r := Success(p);
    }

    /** Declares a string-like preference over `key`, unless the key already has one. */
    method StringLikePreference(key: string, defaultValue: Value, codec: Codec) returns (r: Result<ManagedPreference>)
      requires Valid()
      modifies this`managedPreferences
      ensures Valid()
      ensures key in old(managedPreferences) ==>
        r == Failure(AlreadyDefined(key)) && managedPreferences == old(managedPreferences)
      ensures key !in old(managedPreferences) ==>
        r.Success? && fresh(r.value) && managedPreferences == old(managedPreferences)[key := r.value] &&
        r.value.key == key && r.value.store == sharedPreferences && r.value.defaultValue == defaultValue &&
        r.value.codec == Some(codec) && r.value.listeners == {}
    {
      if key in managedPreferences {
        return Failure(AlreadyDefined(key));
      }
      var p := new ManagedPreference(sharedPreferences, key, defaultValue, Some(codec));
      managedPreferences := managedPreferences[key := p];
      r := Success(p);
    }

    /** The store reports a change of `key`: the listeners of the preference registered for it are called, if there is one. */
    method OnSharedPreferenceChanged(key: string) returns (calls: seq<ChangeListener>)
      ensures key !in managedPreferences ==> calls == []
      ensures key in managedPreferences ==>
        (forall l :: l in calls <==> l in managedPreferences[key].listeners) &&
        |calls| == |managedPreferences[key].listeners|
    {
      calls := [];
      if key in managedPreferences {
        calls := managedPreferences[key].FireChange();
      }
    }
  }

  /** One declaration of the registry: a key, its default, and the codec of a string-like preference. */
  datatype Declaration = Declaration(key: string, defaultValue: Value, codec: Option<Codec>)

  /** The seven preferences the registry declares, in order: five flags and a count stored as they are, and a style stored through its codec. */
  function Declarations(keys: PrefKeys, styleDefault: Value, styleCodec: Codec): (r: seq<Declaration>)
    ensures |r| == 7 && forall i :: 0 <= i < 7 ==> r[i].key == KeyList(keys)[i]
  {
    [Declaration(keys.firstRun, BoolValue(true), None),
     Declaration(keys.ignoreSystemCursor, BoolValue(true), None),
     Declaration(keys.hideKeyConfig, BoolValue(true), None),
     Declaration(keys.buttonHapticFeedback, BoolValue(true), None),
     Declaration(keys.clipboard, BoolValue(true), None),
     Declaration(keys.clipboardLimit, IntValue(5), None),
     Declaration(keys.expandableCandidateStyle, styleDefault, Some(styleCodec))]
  }

  function KeysOf(ds: seq<Declaration>): (r: seq<string>)
    ensures |r| == |ds| && forall i :: 0 <= i < |ds| ==> r[i] == ds[i].key
  {
    seq(|ds|, i requires 0 <= i < |ds| => ds[i].key)
  }

  /** The registry `m` holds `d`: a preference over its key with its default and its codec. */
  ghost predicate Holds(m: map<string, ManagedPreference>, d: Declaration) {
    d.key in m && m[d.key].defaultValue == d.defaultValue && m[d.key].codec == d.codec
  }

  /** The registry `m` holds exactly the declarations `ds`. */
  ghost predicate HoldsExactly(m: map<string, ManagedPreference>, ds: seq<Declaration>) {
    (forall k :: k in m <==> k in KeysOf(ds)) &&
    forall i :: 0 <= i < |ds| ==> Holds(m, ds[i])
  }

  /** A key that already occurs earlier makes the key list not distinct. */
  lemma RepeatedKey(s: seq<string>, j: nat)
    requires j < |s| && s[j] in s[..j]
    ensures !Distinct(s)
  {
    var i :| 0 <= i < j && s[..j][i] == s[j];
    assert s[i] == s[j];
  }

  /** The registry `m` holds the first `i` declarations of `ds`, whose keys are distinct, and nothing else. */
  ghost predicate Registered(m: map<string, ManagedPreference>, ds: seq<Declaration>, i: nat)
    requires i <= |ds|
  {
    && Distinct(KeysOf(ds)[..i])
    && (forall k :: k in m <==> k in KeysOf(ds)[..i])
    && forall j :: 0 <= j < i ==> Holds(m, ds[j])
  }

  /** Adding the next declaration under a key not yet held extends what the registry holds by that one. */
  lemma RegisteredStep(m0: map<string, ManagedPreference>, m: map<string, ManagedPreference>, ds: seq<Declaration>, i: nat)
    requires i < |ds| && Registered(m0, ds, i)
    requires ds[i].key !in m0 && Holds(m, ds[i]) && m == m0[ds[i].key := m[ds[i].key]]
    ensures Registered(m, ds, i + 1)
  {
    var s := KeysOf(ds);
    assert s[..i + 1] == s[..i] + [s[i]];
    forall j | 0 <= j < i ensures Holds(m, ds[j]) {
      assert s[j] == s[..i][j];
    }
  }

  /** All declarations registered: their keys are distinct and the registry holds exactly them. */
  lemma RegisteredAll(m: map<string, ManagedPreference>, ds: seq<Declaration>)
    requires Registered(m, ds, |ds|)
    ensures Distinct(KeysOf(ds)) && HoldsExactly(m, ds)
  {
    assert KeysOf(ds)[..|ds|] == KeysOf(ds);
  }

  /** The next declaration's key is already registered: the keys are not distinct. */
  lemma RegisteredClash(m: map<string, ManagedPreference>, ds: seq<Declaration>, i: nat)
    requires i < |ds| && Registered(m, ds, i) && ds[i].key in m
    ensures !Distinct(KeysOf(ds)) && ds[i].key in KeysOf(ds)
  {
    RepeatedKey(KeysOf(ds), i);
  }

  /** Declares `d`, plain or string-like by whether it has a codec, unless its key is already declared. */
  method DeclareOne(prefs: Prefs, d: Declaration) returns (r: Result<ManagedPreference>)
    requires prefs.Valid()
    modifies prefs`managedPreferences
    ensures prefs.Valid()
    ensures d.key in old(prefs.managedPreferences) ==>
      r == Failure(AlreadyDefined(d.key)) && prefs.managedPreferences == old(prefs.managedPreferences)
    ensures d.key !in old(prefs.managedPreferences) ==>
      r.Success? && prefs.managedPreferences == old(prefs.managedPreferences)[d.key := r.value] &&
      Holds(prefs.managedPreferences, d)
  {
    if d.codec.None? {
      r := prefs.Preference(d.key, d.defaultValue);
    } else {
      r := prefs.StringLikePreference(d.key, d.defaultValue, d.codec.value);
    }
  }

  /**
   * Declares `ds` in order into an empty registry, plain or string-like by
   * whether a declaration has a codec; the first key already declared ends
   * the walk with an error.
   */
  method Declare(prefs: Prefs, ds: seq<Declaration>) returns (r: Result<()>)
    requires prefs.Valid() && prefs.managedPreferences == map[]
    modifies prefs`managedPreferences
    ensures prefs.Valid()
    ensures r.Success? <==> Distinct(KeysOf(ds))
    ensures r.Success? ==> HoldsExactly(prefs.managedPreferences, ds)
    ensures r.Failure? ==> r.error.AlreadyDefined? && r.error.key in KeysOf(ds)
  {
    var i := 0;
    while i < |ds|
      invariant i <= |ds| && prefs.Valid()
      invariant Registered(prefs.managedPreferences, ds, i)
    {
      ghost var before := prefs.managedPreferences;
      var declared := DeclareOne(prefs, ds[i]);
      if declared.Failure? {
        RegisteredClash(before, ds, i);
        return Failure(declared.error);
      }
      RegisteredStep(before, prefs.managedPreferences, ds, i);
      i := i + 1;
    }
    RegisteredAll(prefs.managedPreferences, ds);
    r := Success(());
  }

  /**
   * Creates the registry over `store` and declares its seven preferences in
   * order; a key that is already declared ends the creation with an error.
   */
  method CreatePrefs(store: SharedStore, keys: PrefKeys, styleDefault: Value, styleCodec: Codec) returns (r: Result<Prefs>)
    ensures r.Success? <==> Distinct(KeyList(keys))
    ensures r.Success? ==>
      fresh(r.value) && r.value.sharedPreferences == store && r.value.Valid() &&
      HoldsExactly(r.value.managedPreferences, Declarations(keys, styleDefault, styleCodec))
    ensures r.Failure? ==> r.error.AlreadyDefined? && r.error.key in KeyList(keys)
  {
    var prefs := new Prefs(store);
    var ds := Declarations(keys, styleDefault, styleCodec);
    assert KeysOf(ds) == KeyList(keys);
    var declared := Declare(prefs, ds);
    if declared.Failure? {
      return Failure(declared.error);
    }
    r := Success(prefs);
  }

  /** The process-wide registry: created once by `Init`, handed out by `GetInstance`. */
  class Companion {
    var instance: Prefs?

    constructor ()
      ensures instance == null
    {
      instance := null;
    }

    /**
     * Creates the registry and subscribes it to the store's changes, unless
     * it exists already, in which case nothing changes.
     */
    method Init(store: SharedStore, keys: PrefKeys, styleDefault: Value, styleCodec: Codec) returns (r: Result<()>)
      modifies this`instance, store`changeListeners
      ensures old(instance) != null ==>
        r.Success? && instance == old(instance) && store.changeListeners == old(store.changeListeners)
      ensures old(instance) == null && Distinct(KeyList(keys)) ==>
        r.Success? && instance != null && fresh(instance) && instance.sharedPreferences == store &&
        instance.Valid() && HoldsExactly(instance.managedPreferences, Declarations(keys, styleDefault, styleCodec)) &&
        store.changeListeners == old(store.changeListeners) + {instance}
      ensures old(instance) == null && !Distinct(KeyList(keys)) ==>
        r.Failure? && instance == null && store.changeListeners == old(store.changeListeners)
    {
      if instance != null {
        return Success(());
      }
      var created := CreatePrefs(store, keys, styleDefault, styleCodec);
      if created.Failure? {
        return Failure(created.error);
      }
      instance := created.value;
      store.changeListeners := store.changeListeners + {created.value};
      r := Success(());
    }

    method GetInstance() returns (r: Result<Prefs>)
      ensures instance == null ==> r == Failure(NotInitialised)
      ensures instance != null ==> r.Success? && r.value == instance
    {
      if instance == null {
        return Failure(NotInitialised);
      }
      r := Success(instance);
    }
  }
}
