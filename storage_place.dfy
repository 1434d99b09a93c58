/**
 * The storage-place cycle of a product: a click on its image moves it from the
 * fridge to the freezer, from the freezer to the cupboard and from the cupboard
 * back to the fridge. Places are the strings the backend stores; an absent
 * field is `None`.
 */
module StoragePlace {
  import opened Options

  const Frigo: string := "Frigo"
  const Congelo: string := "Congelo"
  const Placard: string := "Placard"

  /** One of the three places the cycle knows. */
  predicate IsKnownPlace(place: Option<string>)
  {
    place == Some(Frigo) || place == Some(Congelo) || place == Some(Placard)
  }

  /**
   * The place a click moves a product to; `None` (left undefined) for any
   * place outside the cycle, including an absent one.
   */
  function NextPlace(place: Option<string>): (next: Option<string>)
    ensures next.Some? <==> IsKnownPlace(place)
    ensures IsKnownPlace(place) ==> IsKnownPlace(next) && next != place
    ensures place == Some(Frigo) ==> next == Some(Congelo)
    ensures place == Some(Congelo) ==> next == Some(Placard)
    ensures place == Some(Placard) ==> next == Some(Frigo)
  {
    if place == Some(Frigo) then Some(Congelo)
    else if place == Some(Congelo) then Some(Placard)
    else if place == Some(Placard) then Some(Frigo)
    else None
  }

  /** The place reached after `clicks` successive clicks. */
  function Advance(place: Option<string>, clicks: nat): Option<string>
  {
    if clicks == 0 then place else NextPlace(Advance(place, clicks - 1))
  }

  /** Three steps bring every known place back to itself. */
  lemma ThreeStepsReturn(place: Option<string>)
    requires IsKnownPlace(place)
    ensures NextPlace(NextPlace(NextPlace(place))) == place
    ensures NextPlace(NextPlace(place)) != place
  {
  }

  /** Clicking is periodic with period 3 on known places. */
  lemma {:induction false} AdvancePeriodic(place: Option<string>, clicks: nat)
    requires IsKnownPlace(place)
    ensures IsKnownPlace(Advance(place, clicks))
    ensures Advance(place, clicks) == Advance(place, clicks % 3)
  {
    if clicks >= 3 {
      AdvancePeriodic(place, clicks - 3);
      var before := Advance(place, clicks - 3);
      assert Advance(place, clicks - 2) == NextPlace(before);
      assert Advance(place, clicks - 1) == NextPlace(NextPlace(before));
      ThreeStepsReturn(before);
    } else if clicks > 0 {
      assert Advance(place, 1) == NextPlace(place);
    }
  }

  /** A known place comes back exactly after a multiple of three clicks. */
  lemma {:induction false} AdvanceReturnsIff(place: Option<string>, clicks: nat)
    requires IsKnownPlace(place)
    ensures IsKnownPlace(Advance(place, clicks))
    ensures Advance(place, clicks) == place <==> clicks % 3 == 0
  {
    AdvancePeriodic(place, clicks);
    ThreeStepsReturn(place);
    assert Advance(place, 1) == NextPlace(place);
    assert Advance(place, 2) == NextPlace(NextPlace(place));
  }

  /** A place outside the cycle is lost after the first click and never recovers. */
  lemma {:induction false} UnknownPlaceLost(place: Option<string>, clicks: nat)
    requires !IsKnownPlace(place)
    requires clicks > 0
    ensures Advance(place, clicks) == None
  {
    if clicks > 1 {
      UnknownPlaceLost(place, clicks - 1);
    }
  }
}
