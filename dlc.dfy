/**
 * Expiry ("DLC", date limite de consommation) classification of the fridge
 * screen. Both rules read the whole number of days left before the expiry
 * date; that number is an input here, since computing it needs the wall clock.
 */
module Dlc {

  /** The three container styles a product's expiry date is drawn with. */
  datatype DlcColor = Red | Orange | Green

  /** The two modals a press on the expiry date can open. */
  datatype DlcModal = ShortDlcModal | LongDlcModal

  /** Colour of the expiry container: red up to 2 days, orange up to 4, green beyond. */
  function DlcColorOf(daysRemaining: int): (c: DlcColor)
    ensures c == Red <==> daysRemaining <= 2
    ensures c == Orange <==> 2 < daysRemaining <= 4
    ensures c == Green <==> 4 < daysRemaining
  {
    if daysRemaining <= 2 then Red
    else if daysRemaining <= 4 then Orange
    else Green
  }

  /** Modal opened by a press on the expiry date: short up to 4 days, long beyond. */
  function DlcModalOf(daysRemaining: int): (m: DlcModal)
    ensures m == ShortDlcModal <==> daysRemaining <= 4
    ensures m == LongDlcModal <==> 4 < daysRemaining
  {
    if daysRemaining <= 4 then ShortDlcModal else LongDlcModal
  }

  /** How urgent a colour is: red is the most urgent. */
  function Urgency(c: DlcColor): nat
  {
    match c
    case Red => 2
    case Orange => 1
    case Green => 0
  }

  /** The two rules agree: the short modal is the one for red and orange dates. */
  lemma ShortModalIffNotGreen(daysRemaining: int)
    ensures DlcModalOf(daysRemaining) == ShortDlcModal <==> DlcColorOf(daysRemaining) in {Red, Orange}
    ensures DlcModalOf(daysRemaining) == LongDlcModal <==> DlcColorOf(daysRemaining) == Green
  {
  }

  /** Fewer days left never gives a less urgent colour. */
  lemma UrgencyAntitone(earlier: int, later: int)
    requires earlier <= later
    ensures Urgency(DlcColorOf(later)) <= Urgency(DlcColorOf(earlier))
  {
  }

  /** The tie-breaks at the bucket edges, and an expired product. */
  lemma DlcBoundaries()
    ensures DlcColorOf(-1) == Red && DlcColorOf(2) == Red
    ensures DlcColorOf(3) == Orange && DlcColorOf(4) == Orange
    ensures DlcColorOf(5) == Green
    ensures DlcModalOf(4) == ShortDlcModal && DlcModalOf(5) == LongDlcModal
  {
  }
}
