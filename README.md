# Aligned columns: a Dafny model

This project models the core of `add-aligned-columns`. The package is a plugin for a headless reactive table. It has two parts.

- **The alignment plugin** (`AlignedColumns`, in `aligned_columns.dfy`).
  - Each table keeps a shared record from column id to a `ColumnAlignment` (`auto`, `left`, `center` or `right`) or `undefined`.
  - It also keeps a mutable default alignment.
  - A snapshot of the initial record is taken when the plugin is created.
  - Clicking a header's toggle action moves that column's entry to the next entry of the configured toggle order. Clicking its clear action writes the snapshot's entry back.
  - Header and body cells get props (the effective alignment and the `disabled`/`noToggle` flags) and style attributes (`text-align` or `justify-content`).
- **The collection stores** (`ArraySet` in `array_set.dfy` and `RecordSet` in `record_set.dfy`).
  - `arraySetStore` is an ordered set held as an array. It has `toggle` (with an exclusive `clearOthers` mode), `add`, `remove` and `clear`.
  - `recordSetStore` is a key-to-boolean record. It normalises the record so that every stored value is `true`. It has `toggle`, `add`, `addAll`, `remove`, `removeAll`, `clear`, and a normalising `set`/`update`.

`Sequences` (`sequences.dfy`) holds the search both files use: `findIndex` with a strict-equality callback.

Both parts keep their state in a reactive writable cell, and every operation replaces that value. Each stateful part is therefore a class with one field per writable. Its methods reassign the fields, and each method is specified by a pure function of the old value. The properties are proved about those functions. The plugin's snapshot is a `const` field, so no later update can reach it.

Two behaviours of the code are worth stating plainly:
- **Wrap rule.** The wrap target of a column is its initial alignment, or else the current default. Past the last entry of the toggle order, `findNext` (`src/lib/addAlignedColumns.ts:153-155`) returns `toggleOrder[0]` when the wrap target is in the order, and the wrap target itself when it is not. So when the wrap target is in the order, the toggle goes to `toggleOrder[0]`, not back to the initial alignment.
  - With the default order and the default initial alignment `auto`, `toggleOrder[0]` is the initial alignment.
  - With an initial alignment that is in the order but not first, the toggle still goes to `toggleOrder[0]`.
  - `ToggleCycle` proves the cycle property that the code does have.
- **Toggling a disabled column.** The toggle and clear actions check only `noToggle`, not `disable`. So a disabled column's entry can still change when it is clicked. Its effective alignment stays `undefined` whatever the entry holds.

## Model

| member | source | states |
|---|---|---|
| `Sequences.IndexOf` | src/lib/utils/store.ts:52 | `findIndex` with strict equality gives -1 exactly when the value is absent; otherwise it gives the first position holding it |
| `AlignedColumns.Resolve` | src/lib/addAlignedColumns.ts:86-92 | a configuration field that is given is used unchanged; an absent field takes its default (`auto`, the order auto/left/center/right, `prop`, toggling on, disabling off) |
| `AlignedColumns.OptionsOf` | src/lib/addAlignedColumns.ts:136 | a configured column gets its own options; a column without an entry gets no options at all (`?? {}`) |
| `AlignedColumns.ShouldDisable` | src/lib/addAlignedColumns.ts:101-102 | a column's own `disable` wins; without one, `defaultDisable` applies |
| `AlignedColumns.ShouldToggle` | src/lib/addAlignedColumns.ts:104-105 | a column's own `noToggle` wins (negated); without one, `defaultToggle` applies |
| `AlignedColumns.InitialAlignments` | src/lib/addAlignedColumns.ts:107-116 | the initial record has exactly the configured columns as keys; a disabled column starts `undefined`, any other at its `initialAlignment` or else the default alignment |
| `AlignedColumns.EffectiveAlignment` | src/lib/addAlignedColumns.ts:202-204 | a disabled column's alignment is `undefined` whatever the record holds; otherwise it is the stored entry, or the current default when the entry is `undefined` |
| `AlignedColumns.FindNext` | src/lib/addAlignedColumns.ts:141-156 | from the first occurrence of a value before the last position, the next entry; from `undefined` or a value outside a non-empty order, the first entry; from the last entry, the first entry if the initial alignment is in the order, else the initial alignment; with an empty order, the initial alignment |
| `AlignedColumns.TogglesWalk` | src/lib/addAlignedColumns.ts:144-149 | in an order without duplicates, `k` toggles from position `i` reach position `i + k` while that stays in the order |
| `AlignedColumns.ToggleCycle` | src/lib/addAlignedColumns.ts:148-155 | in an order without duplicates that contains the initial alignment, `len` toggles bring any member back to itself |
| `AlignedColumns.ToggleSinkCycle` | src/lib/addAlignedColumns.ts:151-155 | when the initial alignment is outside a non-empty order without duplicates, toggling from it visits the first entry, reaches the last entry after `len` toggles and returns to it after `len + 1` |
| `AlignedColumns.InitialEffectiveAlignment` | src/lib/addAlignedColumns.ts:107-121 | right after creation, a column shows its `initialAlignment` or the default unless disabled; a column without options shows the default unless `defaultDisable` is set |
| `AlignedColumns.FlexAlign` | src/lib/addAlignedColumns.ts:77-82 | `flexAlignMap`: `auto` to `normal`, `left` to `flex-start`, `center` to `center`, `right` to `flex-end`, each value standing for exactly one alignment |
| `AlignedColumns.FlexAlignInjective` | src/lib/addAlignedColumns.ts:77-82 | `flexAlignMap` sends distinct alignments to distinct `justify-content` values |
| `AlignedColumns.AppliesTo` | src/lib/addAlignedColumns.ts:223-225 | an absent `alignOn` covers both regions; a single region covers only itself; a list covers the regions it lists |
| `AlignedColumns.CellAttributes` | src/lib/addAlignedColumns.ts:223-237 | the attributes are `{}` exactly when the alignment is `undefined` or `alignOn` excludes the region; otherwise `text-align` is the alignment only for type `text`, and `justify-content` is set, to `flexAlignMap[alignment]`, only for type `flex` |
| `AlignedColumns.AlignedColumnsPlugin.constructor` | src/lib/addAlignedColumns.ts:118-124 | the record and the snapshot both start as the initial record, and the default starts as the configured default |
| `AlignedColumns.AlignedColumnsPlugin.WrapTarget` | src/lib/addAlignedColumns.ts:151-152 | the wrap target of a toggle is the column's own `initialAlignment`, or, when it has none or is not configured, the default read at toggle time |
| `AlignedColumns.AlignedColumnsPlugin.OnToggle` | src/lib/addAlignedColumns.ts:158-165 | the clicked column's entry becomes `FindNext` of its current entry, wrapping towards its initial alignment or the current default; every other entry is unchanged |
| `AlignedColumns.AlignedColumnsPlugin.OnClear` | src/lib/addAlignedColumns.ts:168-176 | the clicked column's entry becomes its entry in the initial record, whatever came before; every other entry is unchanged |
| `AlignedColumns.AlignedColumnsPlugin.ClickToggle` | src/lib/addAlignedColumns.ts:181-190 | a click toggles the column only when it may be toggled; otherwise the record is unchanged |
| `AlignedColumns.AlignedColumnsPlugin.ClickClear` | src/lib/addAlignedColumns.ts:191-200 | a click clears the column only when it may be toggled; otherwise the record is unchanged |
| `AlignedColumns.AlignedColumnsPlugin.SetDefault` | src/lib/addAlignedColumns.ts:126-129 | writing the exposed default replaces it and nothing else |
| `AlignedColumns.AlignedColumnsPlugin.SetAlignments` | src/lib/addAlignedColumns.ts:126-129 | writing the exposed record replaces it; the snapshot is a separate value and keeps its contents |
| `AlignedColumns.AlignedColumnsPlugin.StoredOrDefault` | src/lib/addAlignedColumns.ts:204 | `$columnsAlignments[cell.id] ?? $alignDefault`: the stored entry, or the current default when the entry is `undefined` or missing |
| `AlignedColumns.AlignedColumnsPlugin.Alignment` | src/lib/addAlignedColumns.ts:202-204 | a cell shows no alignment exactly when its column is disabled; otherwise it shows the stored entry or the current default |
| `AlignedColumns.AlignedColumnsPlugin.HeaderPropsOf` | src/lib/addAlignedColumns.ts:202-212 | a header's `disabled` follows `ShouldDisable`; a disabled header has no alignment and `noToggle` set; otherwise its alignment is the entry or the default; `noToggle` holds exactly when the column is disabled or may not be toggled |
| `AlignedColumns.AlignedColumnsPlugin.BodyPropsOf` | src/lib/addAlignedColumns.ts:245-257 | a body cell's `disabled` follows `ShouldDisable`; a disabled cell has no alignment, any other the entry or the default |
| `AlignedColumns.AlignedColumnsPlugin.HeaderAttrs` | src/lib/addAlignedColumns.ts:216-239 | a header's style is `{}` when the column is disabled or `alignOn` excludes `thead`; otherwise it carries `text-align` for type `text` and the mapped `justify-content` for type `flex` |
| `AlignedColumns.AlignedColumnsPlugin.BodyAttrs` | src/lib/addAlignedColumns.ts:259-286 | the same for a body cell and `tbody` |
| `ArraySet.Toggled` | src/lib/utils/store.ts:50-64 | an absent item is appended, or with `clearOthers` the result is exactly `[item]`; a present item is removed, or with `clearOthers` the result is empty |
| `ArraySet.Added` | src/lib/utils/store.ts:65-73 | an absent item is appended; a present one leaves the array unchanged; the item is always present afterwards |
| `ArraySet.Removed` | src/lib/utils/store.ts:74-82 | an absent item leaves the array unchanged; otherwise exactly one element goes, namely the first occurrence of the item, and the rest keep their order |
| `ArraySet.RemovedMembers` | src/lib/utils/store.ts:74-82 | on an array without duplicates, removal keeps it without duplicates and leaves exactly the other elements |
| `ArraySet.AddedKeepsDistinct` | src/lib/utils/store.ts:65-73 | `add` keeps an array without duplicates free of them and is idempotent |
| `ArraySet.ToggledMembers` | src/lib/utils/store.ts:50-64 | on an array without duplicates, `toggle` keeps it without duplicates and flips the membership of the item alone; with `clearOthers` no other element remains |
| `ArraySet.ToggleTwiceRestores` | src/lib/utils/store.ts:52-62 | toggling an absent item twice without `clearOthers` gives back the original array |
| `ArraySet.ArraySetStore.constructor` | src/lib/utils/store.ts:45-49 | the store starts with the given array, as given |
| `ArraySet.ArraySetStore.Toggle` | src/lib/utils/store.ts:50-64 | the array is replaced by its toggled value |
| `ArraySet.ArraySetStore.Add` | src/lib/utils/store.ts:65-73 | the array is replaced by its value with the item added |
| `ArraySet.ArraySetStore.Remove` | src/lib/utils/store.ts:74-82 | the array is replaced by its value with the item removed |
| `ArraySet.ArraySetStore.Clear` | src/lib/utils/store.ts:83-85 | the array becomes empty |
| `ArraySet.ArraySetStore.Set` | src/lib/utils/store.ts:49 | the writable's own `set` stores the array as given |
| `ArraySet.ArraySetStore.Update` | src/lib/utils/store.ts:49 | the writable's own `update` stores the updater's result |
| `RecordSet.WithFalseRemoved` | src/lib/utils/store.ts:109-111 | the result keeps exactly the keys whose value is `true`, and all its values are `true` |
| `RecordSet.Toggled` | src/lib/utils/store.ts:119-130 | a key stored as `true` is deleted, any other key is stored as `true`, and no other key changes |
| `RecordSet.Added` | src/lib/utils/store.ts:131-136 | the keys gain the item, stored as `true`; other entries are unchanged |
| `RecordSet.AddedAll` | src/lib/utils/store.ts:137-142 | the keys become the union of the old keys and the listed items, each listed item stored as `true`; other entries are unchanged |
| `RecordSet.WithFalseRemovedFixes` | src/lib/utils/store.ts:109-118 | normalising leaves a record unchanged exactly when all its values are `true`, and normalising twice is normalising once |
| `RecordSet.OperationsKeepAllTrue` | src/lib/utils/store.ts:119-159 | toggle, add, addAll, remove and removeAll keep every stored value `true` |
| `RecordSet.ToggleTwiceRestores` | src/lib/utils/store.ts:119-130 | on a normalised record, toggling the same key twice gives back the record |
| `RecordSet.SingleKeyCases` | src/lib/utils/store.ts:131-156 | `add` is `addAll` of a one-element list and `remove` is `removeAll` of one |
| `RecordSet.AddIdempotent` | src/lib/utils/store.ts:137-142 | adding the same list twice is adding it once |
| `RecordSet.RecordSetStore.constructor` | src/lib/utils/store.ts:106-112 | the store starts with the initial record normalised |
| `RecordSet.RecordSetStore.Toggle` | src/lib/utils/store.ts:119-130 | the record is replaced by its toggled value, the represented set gains or loses the item, and all values stay `true` |
| `RecordSet.RecordSetStore.Add` | src/lib/utils/store.ts:131-136 | the represented set gains the item |
| `RecordSet.RecordSetStore.AddAll` | src/lib/utils/store.ts:137-142 | the represented set gains the listed items |
| `RecordSet.RecordSetStore.Remove` | src/lib/utils/store.ts:143-148 | the item's entry is deleted and nothing else changes |
| `RecordSet.RecordSetStore.RemoveAll` | src/lib/utils/store.ts:149-156 | the loop deletes exactly the listed keys and leaves the other entries |
| `RecordSet.RecordSetStore.Clear` | src/lib/utils/store.ts:157-159 | the record becomes empty |
| `RecordSet.RecordSetStore.Set` | src/lib/utils/store.ts:163 | the new record is stored normalised |
| `RecordSet.RecordSetStore.Update` | src/lib/utils/store.ts:162 | the updater's result is stored normalised |

## Left out

- Reactive store machinery (`writable`, `derived`, `get`, subscriptions, recomputation) is not modelled. Each writable is a class field that every method reassigns. Each derived value is a function of the current fields.
- DOM wiring is not modelled: `addEventListener`, `removeEventListener`, `stopPropagation` and the actions' `destroy` objects. A click is a method call. The only part kept is an action's early return when the column may not be toggled (`ClickToggle`, `ClickClear`).
- The `console.log` calls in the body-cell attributes are not modelled.
- The duck-typing guards `isReadable`/`isWritable`, the mapped types and the `Undefined` readables are not modelled. They are type-level or reflection helpers.
- The host table library's plugin types and hook registration are not modelled. The hooks are the class's functions, keyed by column id.
- `structuredClone` is modelled as a value copy.
- JavaScript's conversion of numeric record keys to strings is not modelled. Record keys are a generic type with equality.
- The user-supplied `isEqual` of `arraySetStore` is modelled as built-in equality.
- `arraySetStore` does not remove duplicates from its initial array or from `set`/`update`. So "no duplicates" is proved to be preserved by `toggle`, `add` and `remove` (`ToggledMembers`, `AddedKeepsDistinct`, `RemovedMembers`); it is not a class invariant.
- The optional arguments and their defaults (`arraySetStore`'s `initial = []` and options `= {}` at `src/lib/utils/store.ts:46-47`, `toggle`'s `clearOthers = false` at `src/lib/utils/store.ts:50`, `recordSetStore`'s `initial = {}` at `src/lib/utils/store.ts:107`) are ordinary parameters that the caller always passes.
- The key order of records is not modelled. A JavaScript object keeps its keys in insertion order, but a record here is an unordered `map`. So the record-store lemmas that compare whole records hold as key-to-value mappings, not for the order of `Object.keys`.
- RecordSet.ToggleTwiceRestores: holds up to key order only. Toggling a present key deletes it in place (`src/lib/utils/store.ts:122`). Toggling it again spreads the record and adds the key (`src/lib/utils/store.ts:125-128`), so the key moves to the end of `Object.keys`.
- Object identity and aliasing are not modelled. `recordSetStore`'s `toggle`, `remove` and `removeAll` (`src/lib/utils/store.ts:122`, `145`, `152`) and the plugin's `onToggle` and `onClear` (`src/lib/addAlignedColumns.ts:161`, `172`) mutate the record in place and return the same object. So a record object read earlier, or one passed to `pluginState.alignments.set`, changes with later toggles, clears and removes; the comment at `src/lib/addAlignedColumns.ts:123` reports this for `initialAlignments`. The model has value semantics and describes only the sequence of values the store holds.
