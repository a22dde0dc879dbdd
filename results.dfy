/**
 * The Results panel: which of its views it shows, how its toolbar is
 * enabled, and the copy of the transition rows it hands to the matrix.
 *
 * Transition records, occupations and states are opaque to the panel and
 * appear here as the type parameters T, O and S.
 */
module Results {
  import opened Wrappers

  /** The two ways of viewing the transition data. */
  datatype Visualization = Matrix | Treemap

  /** The panel's props; the caller may leave any of them undefined. */
  datatype Props<T, O, S> = Props(
    selectedState: Option<S>,
    selectedOccupation: Option<O>,
    loading: Option<bool>,
    transitions: Option<seq<T>>,
    error: Option<string>)

  /** The one child the panel renders below its toolbar, if any. */
  datatype Directive<T, O, S> =
    | Spinner
    | ShowError(message: string)
    | ShowMatrix(rows: seq<T>, occupation: O, state: Option<S>)
    | ShowTreemap(rows: seq<T>)
    | Nothing

  /** The flags the panel derives from its rows, its mode and `loading`. */
  datatype Flags = Flags(hasTransitions: bool, showMatrix: bool, showTreemap: bool, disabled: bool)

  /** What one toolbar button receives. */
  datatype Button = Button(disabled: bool, selected: bool)

  /** The three toolbar buttons: matrix, treemap and PDF export. */
  datatype Toolbar = Toolbar(matrix: Button, treemap: Button, exporter: Button)

  // ---------------------------------------------------------------------
  // Props with their destructuring defaults and JavaScript truthiness

  /** `loading` defaults to false when undefined. */
  function Loading<T, O, S>(p: Props<T, O, S>): (b: bool)
    ensures b <==> p.loading == Some(true)
  {
    p.loading.GetOr(false)
  }

  /** `transitions` defaults to the empty list when undefined. */
  function Transitions<T, O, S>(p: Props<T, O, S>): (ts: seq<T>)
    ensures p.transitions.None? ==> ts == []
    ensures p.transitions.Some? ==> ts == p.transitions.value
  {
    p.transitions.GetOr([])
  }

  /** An error counts only when it is a non-empty string: "" is falsy. */
  function HasError(error: Option<string>): (b: bool)
    ensures b <==> error != None && error != Some("")
  {
    error.Some? && error.value != ""
  }

  // ---------------------------------------------------------------------
  // The defensive clone

  /**
   * A new list holding a shallow copy of every record, in order. On values a
   * shallow copy equals its original, so the copy is element-wise equal to
   * the input; the input itself is a value and cannot be changed.
   */
  function Clone<T>(s: seq<T>): (r: seq<T>)
    ensures |r| == |s|
    ensures forall i :: 0 <= i < |s| ==> r[i] == s[i]
  {
    if s == [] then [] else [s[0]] + Clone(s[1..])
  }

  /** The copy is structurally equal to the input. */
  lemma CloneEqualsInput<T>(s: seq<T>)
    ensures Clone(s) == s
  {
  }

  // ---------------------------------------------------------------------
  // Derived flags and the toolbar

  /**
   * The flags computed from the (cloned) rows, the mode and `loading`. At most
   * one data view is wanted, exactly one when there are rows; the controls
   * are disabled exactly when there are no rows or the data is loading.
   */
  function DeriveFlags<T>(rows: seq<T>, v: Visualization, loading: bool): (f: Flags)
    ensures f.hasTransitions <==> |rows| > 0
    ensures !(f.showMatrix && f.showTreemap)
    ensures f.showMatrix || f.showTreemap <==> |rows| > 0
    ensures f.showMatrix ==> v == Matrix
    ensures f.showTreemap ==> v == Treemap
    ensures f.disabled <==> |rows| == 0 || loading
  {
    var hasTransitions := |rows| > 0;
    Flags(hasTransitions,
          v == Matrix && hasTransitions,
          v == Treemap && hasTransitions,
          !hasTransitions || loading)
  }

  /**
   * The toolbar for the given props in mode `v`. All three buttons share one
   * disabled flag, which depends only on the rows and `loading`; the matrix
   * and treemap buttons are never both selected, and export is selected
   * exactly when the treemap button is.
   */
  function Controls<T, O, S>(p: Props<T, O, S>, v: Visualization): (t: Toolbar)
    ensures t.matrix.disabled == t.treemap.disabled == t.exporter.disabled
    ensures t.exporter.disabled <==> Transitions(p) == [] || Loading(p)
    ensures !(t.matrix.selected && t.treemap.selected)
    ensures t.exporter.selected == t.treemap.selected
    ensures t.matrix.selected <==> v == Matrix && Transitions(p) != []
    ensures t.treemap.selected <==> v == Treemap && Transitions(p) != []
  {
    var f := DeriveFlags(Clone(Transitions(p)), v, Loading(p));
    Toolbar(Button(f.disabled, f.showMatrix),
            Button(f.disabled, f.showTreemap),
            Button(f.disabled, f.showTreemap))
  }

  /** Whether export is enabled does not depend on the selected mode. */
  lemma ExportIgnoresMode<T, O, S>(p: Props<T, O, S>, v: Visualization, w: Visualization)
    ensures Controls(p, v).exporter.disabled == Controls(p, w).exporter.disabled
  {
  }

  // ---------------------------------------------------------------------
  // The view decision

  /**
   * The child the panel renders, by strict first-match precedence: spinner
   * while loading, then a non-empty error, then the matrix (which also needs
   * an occupation), then the treemap, else nothing. Each case is stated as
   * the exact condition under which it is chosen.
   */
  function Decide<T, O, S>(p: Props<T, O, S>, v: Visualization): (d: Directive<T, O, S>)
    ensures d.Spinner? <==> Loading(p)
    ensures d.ShowError? <==> !Loading(p) && HasError(p.error)
    ensures d.ShowError? ==> d.message == p.error.value && d.message != ""
    ensures d.ShowMatrix? <==>
              !Loading(p) && !HasError(p.error) && v == Matrix
              && Transitions(p) != [] && p.selectedOccupation.Some?
    ensures d.ShowMatrix? ==>
              d.occupation == p.selectedOccupation.value && d.state == p.selectedState
    ensures d.ShowTreemap? <==>
              !Loading(p) && !HasError(p.error) && v == Treemap && Transitions(p) != []
    ensures d.ShowMatrix? || d.ShowTreemap? ==>
              |d.rows| == |Transitions(p)|
              && forall i :: 0 <= i < |d.rows| ==> d.rows[i] == Transitions(p)[i]
    ensures d.Nothing? <==>
              !Loading(p) && !HasError(p.error)
              && (Transitions(p) == [] || (v == Matrix && p.selectedOccupation.None?))
  {
    var rows := Clone(Transitions(p));
    var f := DeriveFlags(rows, v, Loading(p));
    if Loading(p) then Spinner
    else if HasError(p.error) then ShowError(p.error.value)
    else if f.showMatrix && p.selectedOccupation.Some? then
      ShowMatrix(rows, p.selectedOccupation.value, p.selectedState)
    else if f.showTreemap then ShowTreemap(rows)
    else Nothing
  }

  /**
   * With no rows neither data view is chosen, whatever the mode: the panel
   * shows the spinner, the error or nothing.
   */
  lemma NoRowsNoDataView<T, O, S>(p: Props<T, O, S>, v: Visualization)
    requires Transitions(p) == []
    ensures Decide(p, v).Spinner? || Decide(p, v).ShowError? || Decide(p, v).Nothing?
    ensures Decide(p, v) == Decide(p, if v == Matrix then Treemap else Matrix)
  {
  }

  /**
   * Switching the mode cannot displace the spinner or an error: while either
   * is shown, the decision is the same in both modes.
   */
  lemma ModeSwitchKeepsPrecedence<T, O, S>(p: Props<T, O, S>, v: Visualization, w: Visualization)
    requires Loading(p) || HasError(p.error)
    ensures Decide(p, v) == Decide(p, w)
  {
  }

  // ---------------------------------------------------------------------
  // The component's own state

  /** The panel instance: the one piece of state it keeps is its mode. */
  class ResultsPanel {
    var visualization: Visualization

    /** A new panel starts in matrix mode. */
    constructor ()
      ensures visualization == Matrix
    {
      visualization := Matrix;
    }

    /** The matrix button's click handler. */
    method SelectMatrix()
      modifies this
      ensures visualization == Matrix
    {
      visualization := Matrix;
    }

    /** The treemap button's click handler. */
    method SelectTreemap()
      modifies this
      ensures visualization == Treemap
    {
      visualization := Treemap;
    }

    /** One render: the toolbar and the child for the given props in the current mode. */
    method Render<T, O, S>(p: Props<T, O, S>) returns (toolbar: Toolbar, view: Directive<T, O, S>)
      ensures toolbar == Controls(p, visualization)
      ensures view == Decide(p, visualization)
    {
      toolbar := Controls(p, visualization);
      view := Decide(p, visualization);
    }
  }

  /**
   * A mode switch while an error is present leaves the error on screen: the
   * switch changes only the mode and the error still takes precedence.
   */
  method SwitchUnderError<T, O, S>(panel: ResultsPanel, p: Props<T, O, S>, toTreemap: bool)
    returns (before: Directive<T, O, S>, after: Directive<T, O, S>)
    requires !Loading(p) && HasError(p.error)
    modifies panel
    ensures before == after == ShowError(p.error.value)
    ensures panel.visualization == if toTreemap then Treemap else Matrix
  {
    var _, b := panel.Render(p);
    if toTreemap { panel.SelectTreemap(); } else { panel.SelectMatrix(); }
    var _, a := panel.Render(p);
    before, after := b, a;
  }
}
