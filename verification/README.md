# GrowthSphere form state, in Dafny

The GrowthSphere screen captures a "Program" profile for a limited-partner
organization and dependent "Strategy" profiles. This project models the form
state held by its one React component (`GrowthSphereUI`) as pure transitions
over five pieces of state:

- the Program draft;
- the `creating` flag;
- the `createdProgram` record;
- the Strategy draft;
- the `strategies` list.

Modules, leaves first:

- `OrderedSet` (`ordered_set.dfy`): a JavaScript `Set` as the sector selector
  uses it. It is a duplicate-free sequence in insertion order, with `Add`,
  `Delete` and `FromArray` (`new Set(array)`).
- `SectorMultiSelect` (`sector_select.dfy`): the sector `toggle`. It builds a
  Set from the array, copies it, deletes or adds the clicked item, and returns
  `Array.from` of the copy.
- `ProgramRecord` (`program.dfy`): the Program draft, its initial value and
  the form's field edits. `Get` reads one leaf key (`Path`), so that "only
  this key changed" can be stated and proved complete.
- `StrategyRecord` (`strategy.dfy`): the Strategy draft, its edits and the
  binding to a Program id. `program_id` is `Option<string>`: `None` stands
  for JavaScript `undefined`, which is what a Program response without an
  `id` writes. `Truthy` is JavaScript truthiness.
- `GrowthSphere` (`controller.dfy`): the state, the actions (clicks, edits
  and network responses), the requests a step sends, and the `program_id`
  effect. A disabled button's click is a no-op. An edit from the "Specify
  organization type" input is a no-op unless the type is "Other", because
  the input is rendered only then.
- `Scenarios` (`scenarios.dfy`): three worked sessions.

Network responses are inputs: `ProgramSaved(data)`, `ProgramSaveFailed`,
`StrategiesLoaded(items)` and `StrategiesLoadFailed`. A Strategy create is one
step together with its response, `CreateStrategy(created)`. The HTTP calls
become `Request` values that a step returns. After every action, `Settle`
runs the effect: if `program_id` changed, the list request of
`loadStrategies` is added. This mirrors React's dependency-triggered effect
rather than one call site.

Two points where the component's behaviour is narrower than it might be
read:

- The screen text promises overrides: "You may override specific fields"
  (`GrowthSphereUI.jsx:242` and `:377`) and "override if needed" (`:341`).
  No code computes a Strategy's effective value from its overrides and the
  Program. `overrides` is only initialised to `{}` and sent as-is. The model
  keeps `overrides` as a map that no transition writes, and `Inv` records
  that it stays empty.
- Toggling the same sector twice always restores the set of selected
  sectors (`ToggleTwiceRestoresMembership`). On an array without duplicates
  it restores the exact array if and only if the item was absent or already
  last (`ToggleTwiceRestoresArrayIff`). Toggling any other present item
  twice moves it to the end (`ToggleTwiceMovesPresentItemLast`), because a
  JavaScript Set re-inserts at the end.

## Model

| member | source | states |
|---|---|---|
| OrderedSet.FromArray | src/components/GrowthSphereUI.jsx:116 | `new Set(value)` holds each element of the array exactly once and nothing else |
| OrderedSet.FromArrayFollowsFirstOccurrence | src/components/GrowthSphereUI.jsx:116 | the Set lists elements in the order of their first occurrence in the array |
| OrderedSet.FromArrayIdentityIffNoDup | src/components/GrowthSphereUI.jsx:116-119 | building a Set from an array gives the same array back if and only if the array has no duplicates; so the copy `new Set(selected)` changes nothing |
| OrderedSet.FromArrayIdempotent | src/components/GrowthSphereUI.jsx:119 | copying a Set gives the same Set |
| OrderedSet.Add | src/components/GrowthSphereUI.jsx:121 | `add` keeps the existing elements in place as a prefix, adds at most one element, and keeps the Set duplicate-free |
| OrderedSet.Delete | src/components/GrowthSphereUI.jsx:120 | `delete` removes exactly the given element; deleting an absent element changes nothing |
| OrderedSet.DeleteKeepsNoDup | src/components/GrowthSphereUI.jsx:120 | deleting from a duplicate-free Set keeps it duplicate-free |
| OrderedSet.DeleteCutsOut | src/components/GrowthSphereUI.jsx:120 | deleting the element at position k cuts out exactly that position; the others keep their order |
| OrderedSet.DeleteFollowsFirstOccurrence | src/components/GrowthSphereUI.jsx:116-120 | deleting from a Set built from an array keeps the remaining elements in first-occurrence order |
| OrderedSet.DeleteUndoesAppend | src/components/GrowthSphereUI.jsx:120-121 | deleting an element just appended to a Set without it restores the Set |
| SectorMultiSelect.Toggle | src/components/GrowthSphereUI.jsx:116-123 | the result has no duplicates; the item is in it iff it was not in the input; every other string keeps its membership; a newly added item comes last |
| SectorMultiSelect.ToggleOnFirstOccurrences | src/components/GrowthSphereUI.jsx:116-122 | toggle works on the Set built from the input array; the second copy of that Set changes nothing |
| SectorMultiSelect.ToggleKeepsFirstOccurrenceOrder | src/components/GrowthSphereUI.jsx:116-122 | apart from a newly added item, the result follows first-occurrence order of the input array |
| SectorMultiSelect.ToggleAppendsToSet | src/components/GrowthSphereUI.jsx:119-122 | on a duplicate-free array, toggling an absent item appends it |
| SectorMultiSelect.ToggleDeletesFromSet | src/components/GrowthSphereUI.jsx:119-122 | on a duplicate-free array, toggling a present item removes that one position and keeps the rest in order |
| SectorMultiSelect.ToggleTwiceRestoresMembership | src/components/GrowthSphereUI.jsx:118-122 | toggling the same item twice restores the set of selected sectors, for any input array |
| SectorMultiSelect.ToggleTwiceRestoresArray | src/components/GrowthSphereUI.jsx:118-122 | on a duplicate-free array without the item, toggling it in and out restores the array exactly |
| SectorMultiSelect.ToggleTwiceMovesPresentItemLast | src/components/GrowthSphereUI.jsx:118-122 | on a duplicate-free array with the item, toggling it out and in moves it to the end |
| SectorMultiSelect.ToggleTwiceRestoresArrayIff | src/components/GrowthSphereUI.jsx:118-122 | on a duplicate-free array, toggling an item twice restores the exact array if and only if the item was absent or already last |
| OrderedSet.DeleteThenAppendIffLast | src/components/GrowthSphereUI.jsx:120-121 | deleting a present element and adding it back restores the Set if and only if it was already last |
| SectorMultiSelect.ToggleResultIsASet | src/components/GrowthSphereUI.jsx:116-122 | the toggle result is duplicate-free, so building a Set from it changes nothing |
| ProgramRecord.Apply | src/components/GrowthSphereUI.jsx:255-328 | every field handler writes its value at its own key, whether top-level, contact, regulatory flag or eligibility region; every other key at every level is unchanged |
| ProgramRecord.Extensionality | src/components/GrowthSphereUI.jsx:168-177 | the leaf keys cover the whole Program: two drafts equal on every key are equal |
| ProgramRecord.ApplyIsTheOnlySingleKeyUpdate | src/components/GrowthSphereUI.jsx:255-328 | any draft that writes the edited key and keeps all others is the handler's result |
| ProgramRecord.TypeChangeKeepsOtherText | src/components/GrowthSphereUI.jsx:258-266 | changing `organization_type` does not clear `organization_type_other` |
| ProgramRecord.InitialAllEligible | src/components/GrowthSphereUI.jsx:176 | the initial draft marks NA, EU, UK and APAC "Eligible" |
| ProgramRecord.ApplyKeepsEligibilityValid | src/components/GrowthSphereUI.jsx:325-328 | the eligibility buttons only write "Eligible" or "Not eligible", so every region keeps one of those two values |
| ProgramRecord.SetRegionKeepsOtherRegions | src/components/GrowthSphereUI.jsx:325-328 | setting one region writes the button's label there and leaves the other three regions as they were |
| StrategyRecord.Apply | src/components/GrowthSphereUI.jsx:345-352 | the name and notes handlers change only their metadata key; the sector handler writes exactly the array `toggle` returns, so the item's membership flips, every other sector keeps its membership and the array stays duplicate-free; none touches `program_id` or `overrides` |
| StrategyRecord.Bind | src/components/GrowthSphereUI.jsx:199 | binding writes the returned `id` into `program_id` and leaves metadata, sectors and overrides unchanged |
| GrowthSphere.LoadRoundTrip | src/components/GrowthSphereUI.jsx:216-221 | with a falsy `program_id` no request is sent and the state is unchanged; otherwise one request keyed by `program_id` is sent and the list becomes `items`, or `[]` when `items` is absent, with nothing else changed |
| GrowthSphere.Step | src/components/GrowthSphereUI.jsx:189-226 | no step sends a list request with an empty key or a Strategy POST whose `program_id` is falsy |
| GrowthSphere.Run | src/components/GrowthSphereUI.jsx:189-226 | the same holds for every request of any run of actions |
| GrowthSphere.Mount | src/components/GrowthSphereUI.jsx:223-226 | the first render's effect sends no request, and the initial state satisfies the invariant |
| GrowthSphere.StepKeepsInv | src/components/GrowthSphereUI.jsx:168-186 | every step keeps regions within the two labels, sectors duplicate-free and overrides empty |
| GrowthSphere.RunKeepsInv | src/components/GrowthSphereUI.jsx:168-186 | any run of actions keeps that invariant |
| GrowthSphere.ReachableStatesKeepInv | src/components/GrowthSphereUI.jsx:168-186 | every state reachable from the first render satisfies the invariant |
| GrowthSphere.SaveGuardedByCreating | src/components/GrowthSphereUI.jsx:333 | while `creating`, Save is a no-op; otherwise it raises `creating` and posts the current draft |
| GrowthSphere.ResponseClearsCreating | src/components/GrowthSphereUI.jsx:200-202 | both the success and the failure response lower `creating` |
| GrowthSphere.SubmitSucceeds | src/components/GrowthSphereUI.jsx:189-203 | a successful save keeps the response as `createdProgram` and puts its `id` into `program_id`; `creating` ends false; metadata, sectors, overrides, the Program draft and the list are unchanged; a list request follows exactly when the `id` is new and truthy |
| GrowthSphere.SubmitFailsCleanly | src/components/GrowthSphereUI.jsx:189-203 | a failed save returns the whole state to what it was before the click |
| GrowthSphere.CreateStrategyGuardedByProgramId | src/components/GrowthSphereUI.jsx:205-214 | Create Strategy posts the draft iff `program_id` is truthy; a successful create then reloads the list for that `program_id`; the draft is not reset |
| GrowthSphere.ProgramIdChangeReloads | src/components/GrowthSphereUI.jsx:223-226 | every step that moves `program_id` to a new truthy value sends the list request for it |
| GrowthSphere.ResponseWithoutIdUnbinds | src/components/GrowthSphereUI.jsx:197-199 | a parsed Program response without `id` sets `program_id` to `undefined`: the Strategy is unbound, Create Strategy is disabled and no list request is sent |
| GrowthSphere.OnlySaveMovesProgramId | src/components/GrowthSphereUI.jsx:199 | only a successful Program response changes `program_id`, and it sets it to the response's `id` |
| GrowthSphere.ListRequestsUseCurrentProgramId | src/components/GrowthSphereUI.jsx:216-221 | every list request a step sends is keyed on the `program_id` that the step leaves in place |
| GrowthSphere.ListReplacedOnlyByResponse | src/components/GrowthSphereUI.jsx:220 | only a list response changes `strategies`; it replaces the list wholesale with `items`, or with `[]`, changes nothing else and sends nothing |
| GrowthSphere.LoadRoundTripIsRequestThenResponse | src/components/GrowthSphereUI.jsx:216-221 | the round trip sends exactly the request `Step` sends for `loadStrategies`; with a truthy `program_id` it ends in the state the `Step` for the response gives, and with a falsy one it changes nothing |
| GrowthSphere.OtherTypeTextEditedOnlyWhileOther | src/components/GrowthSphereUI.jsx:264-266 | `organization_type_other` changes only through its own input and only while the type is "Other"; while the type is "Other" that input writes its value |
| Scenarios.SaveProgramBindsStrategy | src/components/GrowthSphereUI.jsx:189-226 | saving "CalSTRS" / "Public pension" with response id "p1" binds the Strategy to "p1"; the session sends exactly the POST and then one list request for "p1" |
| Scenarios.ToggleSoftwareFintechSoftware | src/components/GrowthSphereUI.jsx:118-122 | from `[]`, toggling "Software", "Fintech", then "Software" gives `["Fintech"]` |
| Scenarios.ErisaThenEuNotEligible | src/components/GrowthSphereUI.jsx:307-326 | checking ERISA and then setting EU to "Not eligible" leaves NA, UK and APAC "Eligible" |

## Left out

- Rendering, CSS and the presentational components (`InfoBadge`, `Card`, `LabeledField`, `Input`, `Select`, lines 6-65): they hold no logic.
- The Spline 3D header (line 232): a decorative foreign component.
- `fetch`, JSON encoding and the base-URL lookup (lines 4, 192-197, 206-211, 218-219). A request is a `Request` value, and its parsed response is an input action.
- The Programs "Refresh" button with its `alert` (lines 366-371): it is pure I/O and never touches component state.
- Overlapping requests, stale closures and last-response-wins races. Each response is applied atomically when it arrives and is not matched to the request that caused it; the code does no such matching either.
- `createStrategy` reloads through the `loadStrategies` closure of the render in which the button was clicked. The model treats the create and its response as one step, so that closure's `program_id` is the current one.
- Override resolution: the component never computes an effective value; `overrides` is only `{}`.
- Vocabulary checks on sectors, organization types and regions: the code has none. The option lists only feed the UI (lines 67-78, 104-114).
- The value returned by `createStrategy` (line 213): nothing in the component reads it.
- A non-string `id` in a Program response: `id` is modelled as a string or absent.
- The rest of a Program response body is taken to be a Program record. The code stores whatever parsed, including an error body, because it never checks the HTTP status.
- The content of listed Strategy items: the list is held and replaced, never interpreted.
- React batching: each action is one render. The effect compares `program_id` by value. For strings and `undefined` this agrees with `Object.is`.
