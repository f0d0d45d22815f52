/** The three display modes of a chart axis (AxisMode.java). */
module AxisModes {

  datatype AxisMode = ShowWithValues | ShowRulerOnly | Hide {

    /** Whether the tick values are written out as text. */
    predicate ShowLabels() {
      match this
      case ShowWithValues => true
      case _ => false
    }

    /** Whether the tick marks of the ruler are drawn. */
    predicate ShowRuler() {
      match this
      case ShowWithValues => true
      case ShowRulerOnly => true
      case _ => false
    }
  }

  /** Only the full mode writes values. */
  lemma LabelsOnlyWithValues(m: AxisMode)
    ensures m.ShowLabels() <==> m == ShowWithValues
  {
  }

  /** Every mode but Hide draws the ruler. */
  lemma RulerUnlessHidden(m: AxisMode)
    ensures m.ShowRuler() <==> m != Hide
  {
  }

  /** Values are never written without their ruler. */
  lemma LabelsImplyRuler(m: AxisMode)
    ensures m.ShowLabels() ==> m.ShowRuler()
  {
  }

  /** A hidden axis shows neither values nor ruler. */
  lemma HideShowsNothing()
    ensures !Hide.ShowLabels() && !Hide.ShowRuler()
  {
  }
}
