/** The rule store and lookup of the software side (rule_store_model.py, rule_lookup_model.py)
    against the device's store of 9-byte cells. */
module RuleStore {
  import opened Words
  import opened Stream
  import opened Wire
  import opened Device

  /** What a written rule is kept as: only the severity is cut. */
  function Kept(r: Rule): Rule {
    r.(severity := r.severity % 16)
  }

  // ----- the two stores after the same writes -----

  datatype Write = Written(idx: nat, rule: Rule)

  ghost predicate InRange(ws: seq<Write>) {
    forall w <- ws :: w.idx < RULE_DEPTH && w.rule.src < TWO32
  }

  function BlankRules(): (cells: seq<Rule>)
    ensures |cells| == RULE_DEPTH && forall i :: 0 <= i < RULE_DEPTH ==> cells[i] == BLANK_RULE
  {
    seq(RULE_DEPTH, _ => BLANK_RULE)
  }

  /** The software store's cells. */
  ghost function KeptAfter(ws: seq<Write>): (cells: seq<Rule>)
    ensures |cells| == RULE_DEPTH
  {
    if ws == [] then BlankRules()
    else if Last(ws).idx < RULE_DEPTH then KeptAfter(Init(ws))[Last(ws).idx := Kept(Last(ws).rule)]
    else KeptAfter(Init(ws))
  }

  /** The device's cells. */
  ghost function SentAfter(ws: seq<Write>): (cells: seq<RuleCell>)
    ensures |cells| == RULE_DEPTH
  {
    if ws == [] then BlankCells()
    else if Last(ws).idx < RULE_DEPTH then SentAfter(Init(ws))[Last(ws).idx := EncodeRule(Last(ws).rule)]
    else SentAfter(Init(ws))
  }

  /** A rule whose action and epoch fit their bytes. */
  predicate Representable(r: Rule) {
    r.action < 256 && r.epoch < 256
  }

  /** The last rule written at an index, if any. */
  function LastAt(ws: seq<Write>, idx: nat): Option<Rule> {
    if ws == [] then None
    else if Last(ws).idx == idx then Some(Last(ws).rule)
    else LastAt(Init(ws), idx)
  }

  lemma {:induction false} CellsHoldLast(ws: seq<Write>, idx: nat)
    requires idx < RULE_DEPTH
    ensures KeptAfter(ws)[idx] == if LastAt(ws, idx).Some? then Kept(LastAt(ws, idx).value) else BLANK_RULE
    ensures SentAfter(ws)[idx] ==
      if LastAt(ws, idx).Some? then EncodeRule(LastAt(ws, idx).value) else BlankCell()
  {
    hide EncodeRule, Kept;
    if ws == [] {
    } else {
      CellsHoldLast(Init(ws), idx);
    }
  }

  lemma {:induction false} LastIsWritten(ws: seq<Write>, idx: nat)
    requires LastAt(ws, idx).Some?
    ensures exists w <- ws :: w.rule == LastAt(ws, idx).value
  {
    if Last(ws).idx == idx {
      assert Last(ws) in ws;
    } else {
      LastIsWritten(Init(ws), idx);
      var w :| w in Init(ws) && w.rule == LastAt(ws, idx).value;
      assert w in ws;
    }
  }

  /** After any writes, the two stores read alike at an index exactly when the last rule written
      there, if any, is representable. */
  lemma {:induction false} CellsAgreeIff(ws: seq<Write>, idx: nat)
    requires InRange(ws) && idx < RULE_DEPTH
    ensures DecodeRule(SentAfter(ws)[idx]) == KeptAfter(ws)[idx] <==>
      LastAt(ws, idx).None? || Representable(LastAt(ws, idx).value)
  {
    CellsHoldLast(ws, idx);
    BlankDecodes();
    if LastAt(ws, idx).Some? {
      LastIsWritten(ws, idx);
      RuleRoundTrip(LastAt(ws, idx).value);
    }
    hide EncodeRule, DecodeRule, KeptAfter, SentAfter, LastAt;
  }

  /** Then both lookups answer alike, for every source and epoch. */
  lemma {:induction false} LookupsAgree(ws: seq<Write>, src: Ip, epoch: nat)
    requires InRange(ws) && forall w <- ws :: Representable(w.rule)
    ensures Apply(KeptAfter(ws)[LookupIdx(src)], src, epoch) == LookupRule(SentAfter(ws), src, epoch)
  {
    CellsAgreeIff(ws, LookupIdx(src));
    if LastAt(ws, LookupIdx(src)).Some? {
      LastIsWritten(ws, LookupIdx(src));
    }
    hide LookupIdx, DecodeRule, KeptAfter, SentAfter, LastAt;
  }

  // ----- the software store -----

  class RuleStore {
    var cells: seq<Rule>
    ghost var writes: seq<Write>   // the writes so far

    ghost predicate Valid()
      reads this
    {
      cells == KeptAfter(writes) && InRange(writes)
    }

    constructor ()
      ensures Valid() && writes == []
    {
      cells := seq(RULE_DEPTH, _ => BLANK_RULE);
      writes := [];
    }

    /** An index outside the store is an error and changes nothing. */
    method Write(idx: int, r: Rule) returns (ok: bool)
      requires Valid() && r.src < TWO32
      modifies this
      ensures Valid() && (ok <==> 0 <= idx < RULE_DEPTH)
      ensures writes == if ok then old(writes) + [Written(idx, r)] else old(writes)
    {
      if !(0 <= idx < RULE_DEPTH) {
        return false;
      }
      assert Init(writes + [Written(idx, r)]) == writes;
      cells := cells[idx := r.(severity := r.severity % 16)];
      writes := writes + [Written(idx, r)];
      return true;
    }

    /** What reads back is the last rule written at the index, its severity cut; a blank one before that. */
    function Read(idx: int): (r: Option<Rule>)
      requires Valid()
      reads this
      ensures r.Some? <==> 0 <= idx < RULE_DEPTH
      ensures r.Some? ==> r.value == match LastAt(writes, idx) case Some(w) => Kept(w) case None => BLANK_RULE
    {
      if 0 <= idx < RULE_DEPTH then
        CellsHoldLast(writes, idx);
        Some(cells[idx])
      else
        None
    }

    /** While every written rule fits its bytes, the answer is the device's. */
    function LookUp(src: Ip, epoch: nat): (r: Lookup)
      requires Valid()
      reads this
      ensures (forall w <- writes :: Representable(w.rule)) ==> r == LookupRule(SentAfter(writes), src, epoch)
    {
      ghost var fits := forall w <- writes :: Representable(w.rule);
      assert fits ==> Apply(cells[LookupIdx(src)], src, epoch) == LookupRule(SentAfter(writes), src, epoch) by {
        if fits {
          LookupsAgree(writes, src, epoch);
        }
      }
      var stored := Read(LookupIdx(src)).value;
      if stored.src == src && stored.epoch == epoch then Lookup(true, stored.action, stored.severity)
      else Lookup(false, 0, 0)
    }
  }
}
