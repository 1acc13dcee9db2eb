# CustomStringOption

A Dafny model of `CustomStringOption` from the Essentials mod framework for
Among Us: a game option that cycles through a fixed list of display strings.
The option holds an integer index into the `Values` list, whose field is readonly. `Increase`
and `Decrease` move the index one step and wrap at the ends. `SetValue` sets
it directly; an index outside the list falls back to the default index 0
instead of wrapping. `GetText` reads the selected string back. When saving is
on, the constructor binds a configuration entry and starts from the index
stored there, clamped the same way. A `ValueChanged` handler writes the index
back to that entry, but only when the lobby host changes the option.

Files:

- `Wrappers.dfy`: an `Option` datatype. It stands for a reference that may be null.
- `CustomStringOption.dfy`: module `CustomStringOptions`. It holds the index
  arithmetic as functions, the option as a class with a mutable `value` and
  `configEntry`, the four `AddString` factories, and the lemmas about them.

How the model maps onto the source:

- The base class `CustomOption` is not part of this model. Its value storage
  becomes the field `value`, and its default value becomes the constant
  `DefaultValue = 0` (the base-constructor argument).
- `ConfigEntry<int>` becomes `configEntry: Option<int>`. `None` stands for the
  null entry of an option that does not save its value.
- BepInEx's `Config.Bind` becomes the constructor parameter `storedValue`. It is
  the integer already stored under the option's key, or `None` when nothing is
  stored yet. In that case Bind yields the default value.
- The three game-runtime conditions of the `ValueChanged` handler become the
  datatype `HostState`. These are: the option's widget is a `StringOption`, the
  client is host, and a local player exists. The fourth condition, a non-null
  entry, is read from the object.
- `SetValue(int, bool)` becomes two operations. `SetValueSilently` is the
  `raiseEvents = false` path used by the constructor. `SetValue` is the
  notifying path: it sets the index and then runs the handler (`OnValueChanged`).
- `GetText(int)` becomes `GetTextAt`. It returns `None` where the array access
  throws `IndexOutOfRangeException`; the source never clamps this index.
- The wrap-around is proved against an independent reference: `k` calls to
  `Increase` equal `(i + k) % |Values|`, and `k` calls to `Decrease` equal
  `(i - k) % |Values|`. The modulo is Euclidean, as in Dafny.

Two consequences of the code worth stating:

- A stored index outside the list starts at 0: the constructor (line 44) goes
  through the clamp on line 92. The doc comment on line 32 only says the last
  value is applied again.
- The write-back also needs a non-null entry (line 40), besides the widget,
  host and local-player tests.

## Model

| member | source | states |
|---|---|---|
| `CustomStringOptions.Clamp` | Essentials/Options/CustomOption.String.cs:90-95 | the stored index is always in `[0, n)`; it equals the requested index exactly when that index is in range, and is the default index 0 otherwise |
| `CustomStringOptions.IncreaseTarget` | Essentials/Options/CustomOption.String.cs:71-77 | the index Increase moves to is a valid index and equals `(i + 1) mod n`: `i + 1`, or 0 after the last index |
| `CustomStringOptions.DecreaseTarget` | Essentials/Options/CustomOption.String.cs:82-88 | the index Decrease moves to is a valid index and equals `(i - 1) mod n`: `i - 1`, or `n - 1` from index 0 |
| `CustomStringOptions.IncreasedBy` | Essentials/Options/CustomOption.String.cs:71-77 | any number of successive Increase calls keeps the index in range |
| `CustomStringOptions.DecreasedBy` | Essentials/Options/CustomOption.String.cs:82-88 | any number of successive Decrease calls keeps the index in range |
| `CustomStringOptions.BoundEntry` | Essentials/Options/CustomOption.String.cs:43 | an entry exists exactly when saving is on; it holds the stored value, or the default 0 when nothing was stored |
| `CustomStringOptions.InitialIndex` | Essentials/Options/CustomOption.String.cs:43-44 | the starting index is valid; it is 0 without saving, 0 when saving with nothing stored (Bind yields the default), the stored value when that is in range, and 0 when the stored value is out of range |
| `CustomStringOptions.CustomStringOption.constructor` | Essentials/Options/CustomOption.String.cs:34-47 | keeps id, name, save flag and values; binds the entry as `BoundEntry` says; starts at `InitialIndex` without running the write-back handler; establishes the invariant |
| `CustomStringOptions.CustomStringOption.GetValue` | Essentials/Options/CustomOption.String.cs:119-122 | the current index is always a valid index, so its text can be read |
| `CustomStringOptions.CustomStringOption.GetDefaultValue` | Essentials/Options/CustomOption.String.cs:107-110 | the default index is valid and is the index every out-of-range set falls back to |
| `CustomStringOptions.CustomStringOption.GetTextAt` | Essentials/Options/CustomOption.String.cs:125-128 | yields `Values[i]` exactly when `i` is in range, with no clamping; fails otherwise |
| `CustomStringOptions.CustomStringOption.GetText` | Essentials/Options/CustomOption.String.cs:131-134 | the current text is the text at the current index, and is one of `Values` |
| `CustomStringOptions.CustomStringOption.SetValueSilently` | Essentials/Options/CustomOption.String.cs:90-95 | stores the clamped index, leaves the entry untouched, and keeps the invariant |
| `CustomStringOptions.CustomStringOption.OnValueChanged` | Essentials/Options/CustomOption.String.cs:38-41 | writes the current index to the entry when all four conditions hold; leaves the entry unchanged otherwise |
| `CustomStringOptions.CustomStringOption.SetValue` | Essentials/Options/CustomOption.String.cs:101-104 | stores the clamped index, then applies the write-back rule to the new index |
| `CustomStringOptions.CustomStringOption.Increase` | Essentials/Options/CustomOption.String.cs:71-77 | the new index is `(old + 1) mod n` for list length `n`; the 32-bit `+ 1` cannot overflow; the write-back rule applies |
| `CustomStringOptions.CustomStringOption.Decrease` | Essentials/Options/CustomOption.String.cs:82-88 | the new index is `(old - 1) mod n` for list length `n`; the write-back rule applies |
| `CustomStringOptions.AddString` | Essentials/Options/CustomOption.String.cs:146-149 | gives a fresh option equal to the full constructor's |
| `CustomStringOptions.AddStringSaved` | Essentials/Options/CustomOption.String.cs:157-160 | the same option with saving on |
| `CustomStringOptions.AddStringNamed` | Essentials/Options/CustomOption.String.cs:168-171 | the same option with the ID equal to the name |
| `CustomStringOptions.AddStringNamedSaved` | Essentials/Options/CustomOption.String.cs:178-181 | the same option with the ID equal to the name and saving on |
| `CustomStringOptions.IncreasedByIsModular` | Essentials/Options/CustomOption.String.cs:71-77 | `k` Increase calls from index `i` land on `(i + k) mod n` |
| `CustomStringOptions.DecreasedByIsModular` | Essentials/Options/CustomOption.String.cs:82-88 | `k` Decrease calls from index `i` land on `(i - k) mod n` |
| `CustomStringOptions.FullCycle` | Essentials/Options/CustomOption.String.cs:71-88 | as many Increase calls, or Decrease calls, as the list has entries, return to the starting index |
| `CustomStringOptions.IncreaseDecreaseInverse` | Essentials/Options/CustomOption.String.cs:71-88 | Decrease undoes Increase and Increase undoes Decrease |
| `CustomStringOptions.ClampIsNotWrap` | Essentials/Options/CustomOption.String.cs:90-95 | an index past the end is stored as 0, not as its remainder modulo the list length |
| `CustomStringOptions.ClampIdempotent` | Essentials/Options/CustomOption.String.cs:90-95 | clamping twice is the same as clamping once |
| `CustomStringOptions.SaveAndReload` | Essentials/Options/CustomOption.String.cs:32-44 | after a host `SetValue` writes the entry back, an option built from that entry starts at the same index and shows the same text |
| `CustomStringOptions.NonHostChanges` | Essentials/Options/CustomOption.String.cs:38-41 | on a client that is not host, `Increase`, `Decrease` and `SetValue` each leave the entry unchanged while the index still moves |
| `CustomStringOptions.OffLowHighScenario` | Essentials/Options/CustomOption.String.cs:71-134 | for `["Off", "Low", "High"]` starting at "Off", three Increase calls show "Low", "High", "Off", and `SetValue(5)` then resets the index to 0 |

## Left out

- `GameOptionCreated` (lines 59-66), the `StringFormat` hook (line 46) and name/value formatting: these drive game UI widgets whose types are not part of this model.
- The event-args overrides (lines 49-57) and `GetOldValue` (lines 113-116): they depend on the base class's old-value tracking, which is not part of this model.
- Event dispatch of the base class `CustomOption`: the model runs the `ValueChanged` handler once on every notifying set. It does not model whether the base class skips the event when the index does not change.
- `Config.Bind` and the configuration file: they are replaced by the `storedValue` parameter and the `configEntry` slot. Key layout and disk persistence are not modelled.
- `AmongUsClient.Instance.AmHost`, `PlayerControl.LocalPlayer` and the widget type test: game-runtime state, passed in as the booleans of `HostState`.
- `CustomStringOptions.CustomStringOption.constructor`: requires a non-empty `Values`. The source does not check this. With an empty list every set stores index 0, which is out of range, and `GetText` throws.
- `CustomStringOptions.CustomStringOption.SetValue`: takes an unbounded integer rather than a 32-bit `int`. Every index outside the list is clamped to 0, so the width changes nothing.
- `CustomStringOptions.CustomStringOption.GetText` and the field `values`: the list is a value. In the source, line 36 keeps the caller's array without copying it, and `readonly` fixes only the reference, so anyone holding that array can overwrite its elements and change what `GetText` returns. Element writes and this sharing are not modelled; the length cannot change, so the index invariant is unaffected.
- Network transmission of the value to other players is done by the base class and is not part of this model.
