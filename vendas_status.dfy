/** The front end's reading of a sale's status text: cancelled, or paid. Both ignore case. */
module VendasStatus {
  import opened Strings

  /** `isStatusCancelado`: an empty status is not cancelled; otherwise the lowercased status mentions
      "cancelad" or "cancel", or is "cancelled". */
  function IsStatusCancelado(status: string): (r: bool)
    ensures status == "" ==> !r
    ensures r <==> Contains(ToLower(status), "cancel")
  {
    if status == "" then
      NotContainsShort(ToLower(status), "cancel");
      false
    else
      var s := ToLower(status);
      CancelCovers(s);
      Contains(s, "cancelad") || Contains(s, "cancel") || s == "cancelled"
  }

  /** "cancelad" and "cancelled" both mention "cancel", so the first and last tests add nothing. */
  lemma CancelCovers(s: string)
    ensures Contains(s, "cancelad") ==> Contains(s, "cancel")
    ensures s == "cancelled" ==> Contains(s, "cancel")
  {
    ContainsAt("cancelad", "cancel", 0);
    if Contains(s, "cancelad") { ContainsTransitive(s, "cancelad", "cancel"); }
    if s == "cancelled" { ContainsAt(s, "cancel", 0); }
  }

  /** `isStatusPago`: an empty status is not paid; otherwise the lowercased status mentions "pag" or
      "paid", or is "completed". */
  function IsStatusPago(status: string): (r: bool)
    ensures status == "" ==> !r
    ensures r <==> Contains(ToLower(status), "pag") || Contains(ToLower(status), "paid")
                   || ToLower(status) == "completed"
  {
    if status == "" then
      NotContainsShort(ToLower(status), "pag");
      NotContainsShort(ToLower(status), "paid");
      false
    else
      var s := ToLower(status);
      Contains(s, "pag") || Contains(s, "paid") || s == "completed"
  }

  /** Neither check depends on the case of the status. */
  lemma StatusIgnoraCaixa(status: string)
    ensures IsStatusCancelado(ToLower(status)) == IsStatusCancelado(status)
    ensures IsStatusPago(ToLower(status)) == IsStatusPago(status)
    ensures IsStatusCancelado(ToUpper(status)) == IsStatusCancelado(status)
  {
    ToLowerIdempotent(status);
    LowerOfUpper(status);
  }

  /** Upper-casing and then lower-casing gives the lower-case string. */
  lemma LowerOfUpper(s: string)
    ensures ToLower(ToUpper(s)) == ToLower(s)
  {
    forall i | 0 <= i < |s|
      ensures ToLower(ToUpper(s))[i] == ToLower(s)[i]
    {
      var c := s[i];
      if IsLowerLetter(c) {
        assert ToUpperChar(c) as int + 32 == c as int;
      }
    }
  }
}
