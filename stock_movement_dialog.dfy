/**
 * The dialog that records a stock movement for a product: the movement kind it starts
 * with, whether a kind brings stock in, the request body, and the reset after a save.
 */
module StockMovementDialog {
  import opened Wrappers
  import opened Text
  import opened Forms
  import opened Web
  import Enums

  /** The `defaultType` property: stock coming in or going out. */
  datatype Direction = In | Out

  /** The kind selected at first: a purchase for "in" (also when no direction is given), else consumption. */
  function InitialTip(defaultType: Option<Direction>): (t: string)
    ensures defaultType != Some(Out) ==> t == "achizitie_in"
    ensures defaultType == Some(Out) ==> t == "consum_out" && !IsIn(t)
  {
    if defaultType == Some(Out) then "consum_out" else "achizitie_in"
  }

  /** `isIn`: purchases and returns bring stock in. */
  predicate IsIn(tip: string)
    ensures IsIn(tip) ==> Enums.ParseTipMiscareStoc(tip).Some?
  {
    tip == "achizitie_in" || tip == "retur_defect"
  }

  /** Of the movement kinds of the back end, exactly purchases and returns count as incoming. */
  lemma IsInOfKinds(t: Enums.TipMiscareStoc)
    ensures IsIn(t.Value()) <==> t == Enums.TipMiscareStoc.AchizitieIn || t == Enums.TipMiscareStoc.ReturDefect
  {
  }

  /** `parseInt(cantitate) || 0`: the quantity typed, or 0 when it is not a number. */
  function Quantity(cantitate: string): (q: int)
    ensures ParseInt(cantitate).Some? ==> q == ParseInt(cantitate).value
    ensures ParseInt(cantitate).None? ==> q == 0
  {
    match ParseInt(cantitate)
    case Some(n) => n
    case None => 0
  }

  /** A quantity written as a number is read back as that number; an empty field is 0. */
  lemma QuantityOfNumber(n: int)
    ensures Quantity(IntToString(n)) == n && Quantity("") == 0
  {
    ParseIntOfIntToString(n);
  }

  /** The body sent for a movement. */
  datatype MovementPayload = MovementPayload(produs_id: int, tip: string, cantitate: int, note: string)

  class Dialog {
    var open: bool
    var cantitate: string
    var tip: string
    var nota: string

    /** The kind is read from `defaultType` only here, when the dialog is first created. */
    constructor(defaultType: Option<Direction>)
      ensures cantitate == "1" && tip == InitialTip(defaultType) && nota == "" && !open
    {
      open := false;
      cantitate := "1";
      tip := InitialTip(defaultType);
      nota := "";
    }

    /**
     * `handleSubmit`: with no product nothing is sent. After an ok response the page is told,
     * the dialog closes and the quantity and note are reset; the kind stays.
     */
    method Submit(produs: Option<int>, reply: Reply) returns (sent: Option<MovementPayload>, outcome: Outcome)
      modifies this`open, this`cantitate, this`nota
      ensures produs.None? ==> sent.None? && outcome == Kept
      ensures produs.Some? ==> sent == Some(MovementPayload(produs.value, tip, Quantity(old(cantitate)), old(nota)))
      ensures produs.Some? && reply == Ok ==> outcome == Done && !open && cantitate == "1" && nota == ""
      ensures produs.None? || reply != Ok ==>
        open == old(open) && cantitate == old(cantitate) && nota == old(nota)
      ensures produs.Some? && reply != Ok ==> outcome == Kept
    {
      if produs.None? {
        return None, Kept;
      }
      sent := Some(MovementPayload(produs.value, tip, Quantity(cantitate), nota));
      if reply == Ok {
        open := false;
        cantitate := "1";
        nota := "";
        outcome := Done;
      } else {
        outcome := Kept;
      }
    }
  }
}
