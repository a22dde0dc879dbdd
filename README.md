# Results panel view selection

A model of the `Results` component of the job-transition explorer
(`frontend/src/ui/Results/Results.tsx`). The panel receives optional
props: the selected state and occupation, a `loading` flag, a list of
transition records and an error message. It keeps one piece of state,
the display mode (`matrix` or `treemap`). It draws a toolbar of three
buttons (matrix, treemap, PDF export). Below the toolbar it draws at most
one child: a progress spinner, the error, the transition table, the
treemap, or nothing.

The model has two files:

- `wrappers.dfy`: module `Wrappers`, an `Option` type for props the caller
  may leave undefined.
- `results.dfy`: module `Results`, which holds the following:
  - `Props`, with the destructuring defaults (`loading = false`,
    `transitions = []`) applied by `Loading` and `Transitions`.
  - JavaScript truthiness of the error string (`HasError`: an empty
    message counts as no error).
  - The defensive copy of the rows (`Clone`).
  - The derived flags (`DeriveFlags`) and the toolbar (`Controls`).
  - The first-match view decision (`Decide`) as a `Directive`
    datatype.
  - The mode state as the class `ResultsPanel`, with the two click
    handlers as methods.

Transition records, occupations and states are opaque to the panel. They
are the type parameters `T`, `O` and `S`. A selected occupation is an
object, so it is truthy exactly when present.

## Model

| member | source | states |
|---|---|---|
| `Results.Transitions` | frontend/src/ui/Results/Results.tsx:24 | an undefined list of transitions is the empty list; a given list is used as it is |
| `Results.Loading` | frontend/src/ui/Results/Results.tsx:25 | an undefined `loading` is false; the panel is loading exactly when `loading` is given as true |
| `Results.HasError` | frontend/src/ui/Results/Results.tsx:102 | an error counts exactly when it is present and is not the empty string |
| `Results.Clone` | frontend/src/ui/Results/Results.tsx:34-37 | the copy has the input's length and its i-th record equals the i-th input record |
| `Results.CloneEqualsInput` | frontend/src/ui/Results/Results.tsx:34-37 | the copy is structurally equal to the input |
| `Results.DeriveFlags` | frontend/src/ui/Results/Results.tsx:39-42 | `showMatrix` and `showTreemap` are never both true; one of them holds exactly when there are rows, and each only in its own mode; `disabled` holds exactly when there are no rows or the data is loading |
| `Results.Controls` | frontend/src/ui/Results/Results.tsx:72-96 | the matrix, treemap and export buttons share one disabled flag, which holds iff there are no rows or `loading`; matrix and treemap are never both selected; export is selected exactly when treemap is |
| `Results.ExportIgnoresMode` | frontend/src/ui/Results/Results.tsx:90-96 | whether export is enabled is the same in both modes |
| `Results.Decide` | frontend/src/ui/Results/Results.tsx:99-115 | spinner iff loading; error iff not loading and the error is a non-empty string, carrying that exact message; matrix iff not loading, no error, matrix mode, rows present and an occupation selected, carrying the copied rows, the occupation and the state; treemap iff not loading, no error, treemap mode and rows present, with no occupation required; nothing in every remaining case |
| `Results.NoRowsNoDataView` | frontend/src/ui/Results/Results.tsx:39-115 | with no rows the child is the spinner, the error or nothing, and it is the same in both modes |
| `Results.ModeSwitchKeepsPrecedence` | frontend/src/ui/Results/Results.tsx:99-103 | while loading or while an error is present, the mode does not change what is shown |
| `Results.ResultsPanel.constructor` | frontend/src/ui/Results/Results.tsx:28-30 | a new panel starts in matrix mode |
| `Results.ResultsPanel.SelectMatrix` | frontend/src/ui/Results/Results.tsx:75-77 | the matrix handler sets the mode to matrix; the mode is the panel's only state, so nothing else changes, and a repeated click leaves it unchanged |
| `Results.ResultsPanel.SelectTreemap` | frontend/src/ui/Results/Results.tsx:84-86 | the treemap handler sets the mode to treemap and changes nothing else |
| `Results.ResultsPanel.Render` | frontend/src/ui/Results/Results.tsx:65-117 | one render produces the toolbar `Controls` and the child `Decide` for the props and the current mode |
| `Results.SwitchUnderError` | frontend/src/ui/Results/Results.tsx:75-103 | switching the mode while an error is present leaves that error displayed before and after the switch |

## Left out

- `exportPDF` (lines 44-63) is not modelled. It finds the treemap's SVG
  element in the DOM, serialises it, creates and attaches a canvas, starts
  Canvg, writes a jsPDF document and saves it. All of these are browser
  and library calls with side effects. Its one guard, "do nothing when the
  element is absent", rests on the DOM lookup. Only the enablement of its
  button is modelled, in `Controls`.
- The `console.log` at line 47 is output only and is not modelled.
- JSX and Material-UI rendering (lines 65-117) and the child components
  `CircularProgress`, `ResultError`, `TransitionTable` and `Treemap` are
  external renderers. The model stops at the `Directive` they would
  receive and at the `disabled`/`selected` props of the buttons.
- A disabled button does not fire its `onClick`. That gate belongs to
  the button component, so `SelectMatrix` and `SelectTreemap` are modelled
  as the unconditional handlers they are.
- `Results.Clone`: records are values here, so the model does not capture
  object identity. It does not show that each copy is a new object, or
  that a renderer mutating a copy cannot reach the caller's record. The
  caller's list cannot change in the model because it is a value.
- `useMemo` memoisation on the identity of the incoming array (line 36) is
  React runtime behaviour keyed on reference identity. The clone is
  modelled as a plain function, recomputed on every render.
- The React hook runtime (`useState` scheduling, re-rendering) is not
  modelled. A handler's effect is seen by the next call of `Render`.
- The internals of `Transition`, `Occupation` and `State` are not part of
  this model. They are opaque type parameters.
