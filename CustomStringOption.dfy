/**
 * A string option of the Essentials mod framework: a cyclic selector over a
 * fixed list of display strings. The option holds an index into that list,
 * moves it with wrap-around Increase/Decrease, sets it directly with a clamp
 * to the default index, and writes it back to its configuration entry when
 * the host changes it in a lobby.
 */
module CustomStringOptions {
  import opened Wrappers

  /** The default index, passed as the base-constructor argument. */
  const DefaultValue: int := 0

  /** int.MaxValue: no .NET array is longer, and indices are 32-bit ints. */
  const MaxInt32: int := 0x7FFF_FFFF

  /**
   * The game-runtime conditions the ValueChanged handler inspects besides the
   * configuration entry: the option's game widget is a StringOption, the local
   * client is the lobby host (false also when the client instance is null),
   * and a local player exists.
   */
  datatype HostState = HostState(gameSettingIsStringOption: bool, amHost: bool, hasLocalPlayer: bool)

  // ---------------------------------------------------------------------------
  // The index arithmetic, as functions of the index and the number of values
  // ---------------------------------------------------------------------------

  /**
   * The index that SetValue(value, raiseEvents) stores: an index outside the
   * list falls back to the default index rather than wrapping.
   */
  function Clamp(v: int, n: int): (r: int)
    requires 0 < n
    ensures 0 <= r < n
    ensures r == v <==> 0 <= v < n
    ensures !(0 <= v < n) ==> r == DefaultValue
  {
    if v < 0 || v >= n then DefaultValue else v
  }

  /** The `next` index Increase computes from index i before setting it. */
  function IncreaseTarget(i: int, n: int): (r: int)
    requires 0 <= i < n
    ensures 0 <= r < n
    ensures r == (i + 1) % n
  {
    if i + 1 >= n then 0 else i + 1
  }

  /** The `next` index Decrease computes from index i before setting it. */
  function DecreaseTarget(i: int, n: int): (r: int)
    requires 0 <= i < n
    ensures 0 <= r < n
    ensures r == (i - 1) % n
  {
    if i - 1 < 0 then n - 1 else i - 1
  }

  /** The index after k successive calls to Increase, starting from index i. */
  function IncreasedBy(i: int, n: int, k: nat): (r: int)
    requires 0 <= i < n
    ensures 0 <= r < n
    decreases k
  {
    if k == 0 then i else IncreaseTarget(IncreasedBy(i, n, k - 1), n)
  }

  /** The index after k successive calls to Decrease, starting from index i. */
  function DecreasedBy(i: int, n: int, k: nat): (r: int)
    requires 0 <= i < n
    ensures 0 <= r < n
    decreases k
  {
    if k == 0 then i else DecreaseTarget(DecreasedBy(i, n, k - 1), n)
  }

  /**
   * The condition under which the ValueChanged handler writes the current
   * index back to the configuration entry.
   */
  predicate WritesBack(host: HostState, entryPresent: bool)
  {
    host.gameSettingIsStringOption && host.amHost && host.hasLocalPlayer && entryPresent
  }

  /**
   * The configuration entry the constructor binds: none when saving is off;
   * otherwise the value already stored under the option's key, or the default
   * index when nothing is stored yet.
   */
  function BoundEntry(saveValue: bool, storedValue: Option<int>): (r: Option<int>)
    ensures r.Some? <==> saveValue
    ensures saveValue && storedValue.None? ==> r == Some(DefaultValue)
    ensures saveValue && storedValue.Some? ==> r == storedValue
  {
    if saveValue then Some(storedValue.GetOr(DefaultValue)) else None
  }

  /** The index the constructor starts from: the bound entry's value, clamped. */
  function InitialIndex(saveValue: bool, storedValue: Option<int>, n: int): (r: int)
    requires 0 < n
    ensures 0 <= r < n
    ensures !saveValue ==> r == DefaultValue
    ensures saveValue && storedValue.None? ==> r == DefaultValue
    ensures saveValue && storedValue.Some? && 0 <= storedValue.value < n ==> r == storedValue.value
    ensures saveValue && storedValue.Some? && !(0 <= storedValue.value < n) ==> r == DefaultValue
  {
    var entry := BoundEntry(saveValue, storedValue);
    Clamp(if entry.None? then DefaultValue else entry.value, n)
  }

  // ---------------------------------------------------------------------------
  // The option object
  // ---------------------------------------------------------------------------

  class CustomStringOption {
    /** The option's ID, naming its configuration key and its network identity. */
    const id: string
    /** The option's display name. */
    const name: string
    /** Whether the last value is kept in the configuration file. */
    const saveValue: bool
    /**
     * The text values the option can present. The source's readonly field
     * fixes only the array reference; this model takes the list as a value.
     */
    const values: seq<string>

    /** The current index (the base class's Value). */
    var value: int
    /** The configuration entry's stored integer; None where the entry is null. */
    var configEntry: Option<int>

    /**
     * The object invariant: the list is non-empty and fits a .NET array, the
     * index is inside it, and an entry exists exactly when saving is on.
     */
    ghost predicate Valid()
      reads this
    {
      0 < |values| <= MaxInt32 &&
      0 <= value < |values| &&
      (configEntry.Some? <==> saveValue)
    }

    /**
     * Binds the configuration entry when saving is on and sets the index
     * from it without raising ValueChanged.
     */
    constructor (id: string, name: string, saveValue: bool, values: seq<string>, storedValue: Option<int>)
      requires 0 < |values| <= MaxInt32
      ensures Valid()
      ensures this.id == id && this.name == name && this.saveValue == saveValue && this.values == values
      ensures configEntry == BoundEntry(saveValue, storedValue)
      ensures value == InitialIndex(saveValue, storedValue, |values|)
    {
      this.id := id;
      this.name := name;
      this.saveValue := saveValue;
      this.values := values;
      value := DefaultValue;
      configEntry := if saveValue then Some(storedValue.GetOr(DefaultValue)) else None;
      new;
      SetValueSilently(if configEntry.None? then DefaultValue else configEntry.value);
    }

    /** GetValue: the current index, always a valid index into the list. */
    function GetValue(): (r: int)
      reads this
      requires Valid()
      ensures 0 <= r < |values|
      ensures GetTextAt(r) == Some(values[r])
    {
      value
    }

    /**
     * GetDefaultValue: the default index, a valid index and the one every
     * out-of-range set falls back to.
     */
    function GetDefaultValue(): (r: int)
      requires 0 < |values|
      ensures 0 <= r < |values|
      ensures forall v :: !(0 <= v < |values|) ==> Clamp(v, |values|) == r
    {
      DefaultValue
    }

    /**
     * GetText(value): the text at the given index, without clamping; None
     * stands for the IndexOutOfRangeException the array access throws.
     */
    function GetTextAt(i: int): (r: Option<string>)
      ensures r.Some? <==> 0 <= i < |values|
      ensures r.Some? ==> r.value == values[i]
    {
      if 0 <= i < |values| then Some(values[i]) else None
    }

    /** GetText(): the text at the current index. */
    function GetText(): (r: string)
      reads this
      requires Valid()
      ensures GetTextAt(value) == Some(r)
      ensures r in values
    {
      values[GetValue()]
    }

    /** SetValue(value, false): store the clamped index without raising ValueChanged. */
    method SetValueSilently(v: int)
      requires Valid()
      modifies this`value
      ensures Valid()
      ensures value == Clamp(v, |values|)
      ensures v != value ==> value == DefaultValue
    {
      var w := v;
      if w < 0 || w >= |values| {
        w := DefaultValue;
      }
      value := w;
    }

    /**
     * The ValueChanged handler installed by the constructor: writes the
     * current index to the configuration entry under the four conditions of
     * WritesBack, and leaves the entry alone otherwise.
     */
    method OnValueChanged(host: HostState)
      requires Valid()
      modifies this`configEntry
      ensures Valid()
      ensures WritesBack(host, old(configEntry).Some?) ==> configEntry == Some(value)
      ensures !WritesBack(host, old(configEntry).Some?) ==> configEntry == old(configEntry)
    {
      if host.gameSettingIsStringOption && host.amHost && host.hasLocalPlayer && configEntry.Some? {
        configEntry := Some(GetValue());
      }
    }

    /** SetValue(value): store the clamped index and raise ValueChanged. */
    method SetValue(v: int, host: HostState)
      requires Valid()
      modifies this`value, this`configEntry
      ensures Valid()
      ensures value == Clamp(v, |values|)
      ensures WritesBack(host, old(configEntry).Some?) ==> configEntry == Some(value)
      ensures !WritesBack(host, old(configEntry).Some?) ==> configEntry == old(configEntry)
    {
      SetValueSilently(v);
      OnValueChanged(host);
    }

    /** Increase: one step forward, wrapping from the last index to 0. */
    method Increase(host: HostState)
      requires Valid()
      modifies this`value, this`configEntry
      ensures Valid()
      ensures value == IncreaseTarget(old(value), |values|)
      ensures value == (old(value) + 1) % |values|
      ensures WritesBack(host, old(configEntry).Some?) ==> configEntry == Some(value)
      ensures !WritesBack(host, old(configEntry).Some?) ==> configEntry == old(configEntry)
    {
      // GetValue() < |values| <= int.MaxValue, so the 32-bit sum cannot wrap
      var next := GetValue() + 1;
      assert next <= MaxInt32;
      if next >= |values| {
        next := 0;
      }
      SetValue(next, host);
    }

    /** Decrease: one step back, wrapping from index 0 to the last index. */
    method Decrease(host: HostState)
      requires Valid()
      modifies this`value, this`configEntry
      ensures Valid()
      ensures value == DecreaseTarget(old(value), |values|)
      ensures value == (old(value) - 1) % |values|
      ensures WritesBack(host, old(configEntry).Some?) ==> configEntry == Some(value)
      ensures !WritesBack(host, old(configEntry).Some?) ==> configEntry == old(configEntry)
    {
      var next := GetValue() - 1;
      if next < 0 {
        next := |values| - 1;
      }
      SetValue(next, host);
    }
  }

  // ---------------------------------------------------------------------------
  // The AddString factory overloads
  // ---------------------------------------------------------------------------

  /** AddString(id, name, saveValue, values): the full constructor. */
  method AddString(id: string, name: string, saveValue: bool, values: seq<string>, storedValue: Option<int>)
    returns (o: CustomStringOption)
    requires 0 < |values| <= MaxInt32
    ensures fresh(o) && o.Valid()
    ensures o.id == id && o.name == name && o.saveValue == saveValue && o.values == values
    ensures o.configEntry == BoundEntry(saveValue, storedValue)
    ensures o.value == InitialIndex(saveValue, storedValue, |values|)
  {
    o := new CustomStringOption(id, name, saveValue, values, storedValue);
  }

  /** AddString(id, name, values): saving defaults to on. */
  method AddStringSaved(id: string, name: string, values: seq<string>, storedValue: Option<int>)
    returns (o: CustomStringOption)
    requires 0 < |values| <= MaxInt32
    ensures fresh(o) && o.Valid()
    ensures o.id == id && o.name == name && o.saveValue && o.values == values
    ensures o.configEntry == BoundEntry(true, storedValue)
    ensures o.value == InitialIndex(true, storedValue, |values|)
  {
    o := AddString(id, name, true, values, storedValue);
  }

  /** AddString(name, saveValue, values): the ID defaults to the name. */
  method AddStringNamed(name: string, saveValue: bool, values: seq<string>, storedValue: Option<int>)
    returns (o: CustomStringOption)
    requires 0 < |values| <= MaxInt32
    ensures fresh(o) && o.Valid()
    ensures o.id == name && o.name == name && o.saveValue == saveValue && o.values == values
    ensures o.configEntry == BoundEntry(saveValue, storedValue)
    ensures o.value == InitialIndex(saveValue, storedValue, |values|)
  {
    o := AddString(name, name, saveValue, values, storedValue);
  }

  /** AddString(name, values): the ID defaults to the name and saving to on. */
  method AddStringNamedSaved(name: string, values: seq<string>, storedValue: Option<int>)
    returns (o: CustomStringOption)
    requires 0 < |values| <= MaxInt32
    ensures fresh(o) && o.Valid()
    ensures o.id == name && o.name == name && o.saveValue && o.values == values
    ensures o.configEntry == BoundEntry(true, storedValue)
    ensures o.value == InitialIndex(true, storedValue, |values|)
  {
    o := AddStringSaved(name, name, values, storedValue);
  }

  // ---------------------------------------------------------------------------
  // Properties of the model
  // ---------------------------------------------------------------------------

  /** Multiplication distributes over subtraction. */
  lemma MulSubDistributes(x: int, y: int, n: int)
    ensures (x - y) * n == x * n - y * n
  {
  }

  /** A product of two naturals is a natural. */
  lemma MulNonneg(x: int, y: int)
    requires 0 <= x && 0 <= y
    ensures 0 <= x * y
  {
  }

  /** Euclidean division splits a into quotient and remainder. */
  lemma DivModSplit(a: int, n: int)
    requires 0 < n
    ensures a == (a / n) * n + a % n && 0 <= a % n < n
  {
  }

  /** a % n is the only remainder r in [0, n) with a == q * n + r. */
  lemma ModUnique(a: int, n: int, q: int, r: int)
    requires 0 <= r < n
    requires a == q * n + r
    ensures a % n == r
  {
    var q', r' := a / n, a % n;
    DivModSplit(a, n);
    var d := q - q';
    MulSubDistributes(q, q', n);
    assert d * n == r' - r;
    if d > 0 {
      MulSubDistributes(d, 1, n);
      MulNonneg(d - 1, n);
    } else if d < 0 {
      MulSubDistributes(-d, 1, n);
      MulNonneg(-d - 1, n);
    }
  }

  /** Adding one modulo n commutes with reducing modulo n first. */
  lemma ModSucc(a: int, n: int)
    requires 0 < n
    ensures (a % n + 1) % n == (a + 1) % n
  {
    var q, r := a / n, a % n;
    assert a == q * n + r;
    if r + 1 < n {
      ModUnique(a + 1, n, q, r + 1);
      ModUnique(r + 1, n, 0, r + 1);
    } else {
      ModUnique(a + 1, n, q + 1, 0);
      ModUnique(r + 1, n, 1, 0);
    }
  }

  /** Subtracting one modulo n commutes with reducing modulo n first. */
  lemma ModPred(a: int, n: int)
    requires 0 < n
    ensures (a % n - 1) % n == (a - 1) % n
  {
    var q, r := a / n, a % n;
    assert a == q * n + r;
    if r > 0 {
      ModUnique(a - 1, n, q, r - 1);
      ModUnique(r - 1, n, 0, r - 1);
    } else {
      ModUnique(a - 1, n, q - 1, n - 1);
      ModUnique(r - 1, n, -1, n - 1);
    }
  }

  /** k calls to Increase move the index k places forward around the list. */
  lemma {:induction false} IncreasedByIsModular(i: int, n: int, k: nat)
    requires 0 <= i < n
    ensures IncreasedBy(i, n, k) == (i + k) % n
  {
    if k > 0 {
      IncreasedByIsModular(i, n, k - 1);
      ModSucc(i + k - 1, n);
    }
  }

  /** k calls to Decrease move the index k places back around the list. */
  lemma {:induction false} DecreasedByIsModular(i: int, n: int, k: nat)
    requires 0 <= i < n
    ensures DecreasedBy(i, n, k) == (i - k) % n
  {
    if k > 0 {
      DecreasedByIsModular(i, n, k - 1);
      ModPred(i - k + 1, n);
    }
  }

  /** |Values| calls to Increase, or to Decrease, bring the index back to where it was. */
  lemma FullCycle(i: int, n: int)
    requires 0 <= i < n
    ensures IncreasedBy(i, n, n) == i
    ensures DecreasedBy(i, n, n) == i
  {
    IncreasedByIsModular(i, n, n);
    DecreasedByIsModular(i, n, n);
    ModUnique(i + n, n, 1, i);
    ModUnique(i - n, n, -1, i);
  }

  /** Decrease undoes Increase and Increase undoes Decrease. */
  lemma IncreaseDecreaseInverse(i: int, n: int)
    requires 0 <= i < n
    ensures DecreaseTarget(IncreaseTarget(i, n), n) == i
    ensures IncreaseTarget(DecreaseTarget(i, n), n) == i
  {
  }

  /**
   * The clamp is not a wrap: an index past the end whose remainder is not 0
   * is stored as the default index, not as its remainder.
   */
  lemma ClampIsNotWrap(v: int, n: int)
    requires 0 < n <= v && v % n != 0
    ensures Clamp(v, n) == DefaultValue
    ensures Clamp(v, n) != v % n
  {
  }

  /** The clamp is idempotent, and the identity on indices already in range. */
  lemma ClampIdempotent(v: int, n: int)
    requires 0 < n
    ensures Clamp(Clamp(v, n), n) == Clamp(v, n)
  {
  }

  /**
   * Saving round trip across sessions: after the host sets the index and the
   * handler writes it back, an option built from that entry starts at the
   * same index and shows the same text.
   */
  method SaveAndReload(o: CustomStringOption, v: int, host: HostState) returns (reloaded: CustomStringOption)
    requires o.Valid() && o.saveValue && WritesBack(host, true)
    modifies o
    ensures o.Valid() && o.value == Clamp(v, |o.values|)
    ensures fresh(reloaded) && reloaded.Valid()
    ensures reloaded.id == o.id && reloaded.values == o.values
    ensures reloaded.value == o.value && reloaded.GetText() == o.GetText()
  {
    o.SetValue(v, host);
    reloaded := new CustomStringOption(o.id, o.name, true, o.values, o.configEntry);
  }

  /**
   * A client that is not the host never writes the entry: Increase, Decrease
   * and SetValue each leave it as it was, while the index still moves.
   */
  method NonHostChanges(o: CustomStringOption, v: int, host: HostState)
    requires o.Valid() && !host.amHost
    modifies o
    ensures o.Valid()
    ensures o.configEntry == old(o.configEntry)
    ensures o.value == Clamp(v, |o.values|)
  {
    ghost var entry := o.configEntry;
    o.Increase(host);
    assert o.configEntry == entry;
    o.Decrease(host);
    assert o.configEntry == entry;
    o.SetValue(v, host);
  }

  /**
   * The option ["Off", "Low", "High"] starting at "Off": three Increase calls
   * show "Low", "High", "Off"; SetValue(5) then resets the index to 0.
   */
  method OffLowHighScenario(host: HostState) returns (texts: seq<string>, afterSet: int)
    ensures texts == ["Low", "High", "Off"]
    ensures afterSet == 0
  {
    var o := new CustomStringOption("Level", "Level", false, ["Off", "Low", "High"], None);
    assert o.GetText() == "Off";
    o.Increase(host);
    var t1 := o.GetText();
    o.Increase(host);
    var t2 := o.GetText();
    o.Increase(host);
    var t3 := o.GetText();
    texts := [t1, t2, t3];
    o.SetValue(5, host);
    afterSet := o.GetValue();
  }
}
