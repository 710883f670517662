/** The admin dashboard: today's sales figure, the bell's unread badge, the status label
    of the recent bookings, and the reading of a notification's text, which carries the
    booking's total and the client's WhatsApp number as plain-text fragments. */
module Dashboard {
  import opened Values
  import opened Text
  import WhatsApp
  import Reports

  // ---------------------------------------------------------------------------
  // Figures and labels

  function SumValues(values: seq<real>): real
  {
    if values == [] then 0.0 else SumValues(values[..|values| - 1]) + values[|values| - 1]
  }

  /** `appSales?.reduce((acc, sale) => acc + Number(sale.final_value), 0) || 0`: the sum
      of the final values fetched, 0 when the fetch gives nothing. */
  function TodaySales(finalValues: Option<seq<real>>): (r: real)
    ensures finalValues.None? ==> r == 0.0
    ensures finalValues.Some? ==> r == SumValues(finalValues.value)
  {
    match finalValues
    case None => 0.0
    case Some(vs) => var total := SumValues(vs); if total != 0.0 then total else 0.0
  }

  /** The final values of report rows, in order. */
  function FinalValues(rows: seq<Reports.ReportRow>): (r: seq<real>)
    ensures |r| == |rows| && forall i :: 0 <= i < |rows| ==> r[i] == rows[i].finalValue
  {
    seq(|rows|, i requires 0 <= i < |rows| => rows[i].finalValue)
  }

  /** The dashboard's sales figure over a day's sales is the report's revenue over the
      same sales. */
  lemma {:induction false} TodaySalesIsRevenue(rows: seq<Reports.ReportRow>)
    ensures TodaySales(Some(FinalValues(rows))) == Reports.TotalRevenue(rows)
  {
    if rows != [] {
      var init := rows[..|rows| - 1];
      assert FinalValues(rows)[..|rows| - 1] == FinalValues(init);
      TodaySalesIsRevenue(init);
    }
  }

  /** The bell's badge: none unless something is unread; `9+` above nine, the count
      itself otherwise. */
  function Badge(unreadCount: int): (r: Option<string>)
    ensures r.Some? <==> unreadCount > 0
    ensures unreadCount > 9 ==> r == Some("9+")
    ensures 0 < unreadCount <= 9 ==>
      r.Some? && |r.value| == 1 && AllDigits(r.value) && DecimalValue(r.value) == unreadCount
  {
    if unreadCount <= 0 then None
    else if unreadCount > 9 then Some("9+")
    else
      DecimalValueOfNatToString(unreadCount);
      Some(IntToString(unreadCount))
  }

  /** The label of a recent booking's status. */
  function StatusLabel(status: Option<string>): (r: string)
    ensures r == "FINALIZADO" <==> status == Some("finalized")
    ensures r == "CONFIRMADO" <==> status == Some("confirmed")
    ensures r == "PENDENTE" <==> status != Some("finalized") && status != Some("confirmed")
  {
    if status == Some("finalized") then "FINALIZADO"
    else if status == Some("confirmed") then "CONFIRMADO"
    else "PENDENTE"
  }

  /** A notification announcing a booking made on the public page. */
  predicate IsAppointmentNotice(title: string)
  {
    title == "Novo Agendamento!"
  }

  // ---------------------------------------------------------------------------
  // Regular-expression fragments of a notification's text

  /** The position just past the longest run of characters satisfying `inSet` that
      starts at `j`. */
  function RunEnd(s: string, j: nat, inSet: char -> bool): (e: nat)
    requires j <= |s|
    ensures j <= e <= |s|
    ensures forall k :: j <= k < e ==> inSet(s[k])
    ensures e == |s| || !inSet(s[e])
    decreases |s| - j
  {
    if j < |s| && inSet(s[j]) then RunEnd(s, j + 1, inSet) else j
  }

  /** `[\d,.]`. */
  predicate IsAmountChar(c: char)
  {
    IsDigit(c) || c == ',' || c == '.'
  }

  /** `[\d\s\(\)\-\+]`. */
  predicate IsPhoneChar(c: char)
  {
    IsDigit(c) || IsSpace(c) || c == '(' || c == ')' || c == '-' || c == '+'
  }

  const TotalLabel := "VALOR TOTAL: "
  const TotalPrefix := "VALOR TOTAL: R$ "
  const PhoneLabel := "WHATSAPP: "

  /** `/VALOR TOTAL: (R\$ [\d,.]+)/` matches at `i`. */
  predicate TotalAt(s: string, i: int)
  {
    OccursAt(s, TotalPrefix, i) && i + |TotalPrefix| < |s| && IsAmountChar(s[i + |TotalPrefix|])
  }

  /** `/WHATSAPP: ([\d\s\(\)\-\+]+?)(?:\.|$)/` matches at `i`: a non-empty run of phone
      characters after the label, followed by a full stop or the end of the text. Since
      `.` is not a phone character, the lazy run is the whole run. */
  predicate PhoneAt(s: string, i: int)
  {
    && OccursAt(s, PhoneLabel, i)
    && i + |PhoneLabel| < |s|
    && IsPhoneChar(s[i + |PhoneLabel|])
    && var e := RunEnd(s, i + |PhoneLabel|, IsPhoneChar);
       e == |s| || s[e] == '.'
  }

  /** The leftmost position at or after `from` where `at` holds. */
  function FirstFrom(s: string, from: nat, at: (string, int) -> bool): (r: Option<nat>)
    ensures r.Some? ==> from <= r.value <= |s| && at(s, r.value)
    ensures r.Some? ==> forall i :: from <= i < r.value ==> !at(s, i)
    ensures r.None? ==> forall i :: from <= i <= |s| ==> !at(s, i)
    decreases |s| - from
  {
    if from > |s| then None
    else if at(s, from) then Some(from)
    else FirstFrom(s, from + 1, at)
  }

  /** The amount captured by a match at `i`: `R$ ` and the longest run of digits,
      commas and full stops after it. */
  function TotalAmount(s: string, i: int): (r: string)
    requires TotalAt(s, i)
    ensures StartsWith(r, "R$ ") && |r| > 3
    ensures forall k :: 3 <= k < |r| ==> IsAmountChar(r[k])
  {
    var start, e := i + |TotalLabel|, RunEnd(s, i + |TotalPrefix|, IsAmountChar);
    var r := s[start..e];
    assert r[..3] == s[start..i + |TotalPrefix|];
    assert forall k :: 3 <= k < |r| ==> r[k] == s[start + k];
    r
  }

  /** A search that finds no match from the start finds none anywhere. */
  lemma NoTotalAnywhere(s: string)
    requires FirstFrom(s, 0, TotalAt).None?
    ensures forall i :: !TotalAt(s, i)
  {
    forall i ensures !TotalAt(s, i) {
      if 0 <= i <= |s| { assert !TotalAt(s, i); }
    }
  }

  /** `totalMatch ? totalMatch[1] : null`: the amount of the leftmost match. A full stop
      ending the sentence right after the amount is part of it. */
  function ExtractTotal(s: string): (r: Option<string>)
    ensures r.None? <==> forall i :: !TotalAt(s, i)
    ensures r.Some? ==>
      exists i :: && TotalAt(s, i) && (forall k :: 0 <= k < i ==> !TotalAt(s, k))
                  && r.value == TotalAmount(s, i)
  {
    match FirstFrom(s, 0, TotalAt)
    case None =>
      NoTotalAnywhere(s);
      None
    case Some(i) =>
      assert TotalAt(s, i);
      Some(TotalAmount(s, i))
  }

  /** `phoneMatch ? phoneMatch[1].trim() : null`. */
  function ExtractPhone(s: string): (r: Option<string>)
    ensures r.None? <==> forall i :: !PhoneAt(s, i)
    ensures r.Some? ==>
      exists i :: && PhoneAt(s, i) && (forall k :: 0 <= k < i ==> !PhoneAt(s, k))
                  && r.value == Trim(s[i + |PhoneLabel|..RunEnd(s, i + |PhoneLabel|, IsPhoneChar)])
  {
    match FirstFrom(s, 0, PhoneAt)
    case None =>
      assert forall i :: !PhoneAt(s, i) by {
        forall i ensures !PhoneAt(s, i) {
          if 0 <= i <= |s| { assert !PhoneAt(s, i); }
        }
      }
      None
    case Some(i) =>
      Some(Trim(s[i + |PhoneLabel|..RunEnd(s, i + |PhoneLabel|, IsPhoneChar)]))
  }

  /** The text shown for a notification: the total's fragment and then the phone's
      fragment removed, each only where it appears exactly as extracted. */
  function CleanMessage(s: string): string
  {
    var afterTotal := match ExtractTotal(s)
      case Some(total) => ReplaceFirst(s, " " + TotalLabel + total, "")
      case None => s;
    var phone := ExtractPhone(s);
    if TruthyString(phone) then ReplaceFirst(afterTotal, ". " + PhoneLabel + phone.value, "") else afterTotal
  }

  /** A text without either fragment is shown as it is. */
  lemma CleanMessageWithoutFragments(s: string)
    requires forall i :: !TotalAt(s, i)
    requires forall i :: !PhoneAt(s, i)
    ensures CleanMessage(s) == s
  {
  }

  /** A text carrying a total but no phone is shown with the first ` VALOR TOTAL: <total>`
      removed and the rest joined. */
  lemma CleanMessageDropsTotal(s: string, pre: string, total: string, post: string)
    requires ExtractTotal(s) == Some(total)
    requires s == pre + (" " + TotalLabel + total) + post
    requires IndexOf(s, " " + TotalLabel + total) == Some(|pre|)
    requires forall i :: !PhoneAt(s, i)
    ensures CleanMessage(s) == pre + post
  {
    ReplaceFirstAt(s, pre, " " + TotalLabel + total, post);
  }

  /** A text carrying a phone but no total is shown with the first
      `. WHATSAPP: <phone>` removed and the rest joined. */
  lemma CleanMessageDropsPhone(s: string, pre: string, phone: string, post: string)
    requires forall i :: !TotalAt(s, i)
    requires ExtractPhone(s) == Some(phone) && phone != ""
    requires s == pre + (". " + PhoneLabel + phone) + post
    requires IndexOf(s, ". " + PhoneLabel + phone) == Some(|pre|)
    ensures CleanMessage(s) == pre + post
  {
    CleanMessageOfPhone(s, phone);
    ReplaceFirstAt(s, pre, ". " + PhoneLabel + phone, post);
  }

  /** With only the phone extracted, its removal. */
  lemma CleanMessageOfPhone(s: string, phone: string)
    requires forall i :: !TotalAt(s, i)
    requires ExtractPhone(s) == Some(phone) && phone != ""
    ensures CleanMessage(s) == ReplaceFirst(s, ". " + PhoneLabel + phone, "")
  {
  }

  /** When the amount ends the sentence, its full stop is captured with it, so removing
      the total also removes the full stop the phone's fragment starts with: the phone's
      fragment is then no longer found and stays on screen. */
  lemma CleanMessageKeepsPhoneAfterSwallowedStop(s: string, pre: string, total: string, phone: string)
    requires ExtractTotal(s) == Some(total) && 0 < |total| && total[|total| - 1] == '.'
    requires ExtractPhone(s) == Some(phone) && phone != ""
    requires s == pre + (" " + TotalLabel + total) + (" " + PhoneLabel + phone)
    requires IndexOf(s, " " + TotalLabel + total) == Some(|pre|)
    requires '.' !in pre && '.' !in phone
    ensures CleanMessage(s) == pre + (" " + PhoneLabel + phone)
  {
    var frag, rest := " " + TotalLabel + total, " " + PhoneLabel + phone;
    ReplaceFirstAt(s, pre, frag, rest);
    NoFullStopAfterLabel(pre, phone);
    NotFoundWithoutFullStop(pre + rest, ". " + PhoneLabel + phone);
    CleanMessageOfBoth(s, total, phone);
  }

  /** With both fragments extracted, the two removals in order. */
  lemma CleanMessageOfBoth(s: string, total: string, phone: string)
    requires ExtractTotal(s) == Some(total)
    requires ExtractPhone(s) == Some(phone) && phone != ""
    ensures CleanMessage(s) == ReplaceFirst(ReplaceFirst(s, " " + TotalLabel + total, ""), ". " + PhoneLabel + phone, "")
  {
  }

  /** `<pre> WHATSAPP: <phone>` has no full stop when neither part has one. */
  lemma NoFullStopAfterLabel(pre: string, phone: string)
    requires '.' !in pre && '.' !in phone
    ensures '.' !in pre + (" " + PhoneLabel + phone)
  {
    var t := pre + (" " + PhoneLabel + phone);
    assert '.' !in PhoneLabel;
    forall k | 0 <= k < |t| ensures t[k] != '.' {
      if k < |pre| {
        assert t[k] == pre[k];
      } else if k == |pre| {
        assert t[k] == ' ';
      } else if k < |pre| + 1 + |PhoneLabel| {
        assert t[k] == PhoneLabel[k - |pre| - 1];
      } else {
        assert t[k] == phone[k - |pre| - 1 - |PhoneLabel|];
      }
    }
  }

  /** A pattern starting with a full stop is not found in a text without one. */
  lemma NotFoundWithoutFullStop(t: string, p: string)
    requires '.' !in t && |p| > 0 && p[0] == '.'
    ensures IndexOf(t, p) == None
  {
    forall j | 0 <= j ensures !OccursAt(t, p, j) {
      if j + |p| <= |t| {
        assert t[j..j + |p|][0] == t[j] && t[j] in t;
      }
    }
    IndexOfNone(t, p);
  }

  /** The WhatsApp button: only on a booking notice whose text carries a phone. */
  predicate ShowWhatsAppAction(title: string, message: string)
  {
    IsAppointmentNotice(title) && TruthyString(ExtractPhone(message))
  }

  const GreetingText := "Ol\U{00E1}! \U{1F60A} Recebemos seu pedido de agendamento no *Sal\U{00E3}o Nexus* e gostar\U{00ED}amos de confirmar! Em breve entraremos em contato para avisar que seu horar\U{00ED}o se aproxima. Obrigada!"

  /** The button's link, dialling the extracted phone by the same rule as the
      confirmation link. */
  function GreetingUrl(title: string, message: string, encode: string -> string): (r: Option<string>)
    ensures r.Some? <==> ShowWhatsAppAction(title, message)
    ensures r.Some? ==> r.value == WhatsApp.WhatsAppUrl(ExtractPhone(message).value, GreetingText, encode)
  {
    if ShowWhatsAppAction(title, message)
    then Some(WhatsApp.WhatsAppUrl(ExtractPhone(message).value, GreetingText, encode))
    else None
  }
}
