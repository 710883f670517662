/** The WhatsApp confirmation link: the client's phone reduced to its digits with the
    Brazilian country code `55` in front, and the confirmation message sent as the
    link's text. */
module WhatsApp {
  import opened Values
  import opened Text

  /** `phone.replace(/\D/g, '')`: the digits of `s`, in their order. */
  function DigitsOnly(s: string): (r: string)
    ensures AllDigits(r) && |r| <= |s|
    ensures forall c :: c in r <==> c in s && IsDigit(c)
  {
    if s == [] then []
    else if IsDigit(s[|s| - 1]) then DigitsOnly(s[..|s| - 1]) + [s[|s| - 1]]
    else
      assert forall c :: c in s <==> c in s[..|s| - 1] || c == s[|s| - 1] by {
        assert s == s[..|s| - 1] + [s[|s| - 1]];
      }
      DigitsOnly(s[..|s| - 1])
  }

  /** Stripping works character by character, so it splits over any division of the
      text. */
  lemma {:induction false} DigitsOnlyAppend(a: string, b: string)
    ensures DigitsOnly(a + b) == DigitsOnly(a) + DigitsOnly(b)
  {
    if b == [] {
      assert a + b == a;
    } else {
      assert (a + b)[..|a + b| - 1] == a + b[..|b| - 1];
      DigitsOnlyAppend(a, b[..|b| - 1]);
    }
  }

  /** A text of digits is kept whole. */
  lemma {:induction false} DigitsOnlyOfDigits(s: string)
    requires AllDigits(s)
    ensures DigitsOnly(s) == s
  {
    if s != [] {
      DigitsOnlyOfDigits(s[..|s| - 1]);
      assert s == s[..|s| - 1] + [s[|s| - 1]];
    }
  }

  /** The number the link dials: the digits, prefixed with `55` unless they already
      start with it. */
  function NormalisePhone(raw: string): (r: string)
    ensures StartsWith(r, "55") && AllDigits(r)
    ensures StartsWith(DigitsOnly(raw), "55") ==> r == DigitsOnly(raw)
    ensures !StartsWith(DigitsOnly(raw), "55") ==> r == "55" + DigitsOnly(raw)
  {
    var clean := DigitsOnly(raw);
    if StartsWith(clean, "55") then clean else "55" + clean
  }

  /** Normalising a normalised number changes nothing. */
  lemma NormaliseIdempotent(raw: string)
    ensures NormalisePhone(NormalisePhone(raw)) == NormalisePhone(raw)
  {
    DigitsOnlyOfDigits(NormalisePhone(raw));
  }

  /** For a number whose digits do not begin with `55`, writing the country code in
      front or leaving it out dials the same number. */
  lemma CountryCodeOptional(raw: string)
    requires !StartsWith(DigitsOnly(raw), "55")
    ensures NormalisePhone("55" + raw) == NormalisePhone(raw)
  {
    DigitsOnlyAppend("55", raw);
    DigitsOnlyOfDigits("55");
    assert ("55" + DigitsOnly(raw))[..2] == "55";
  }

  /** A number with area code 55 but no country code is taken as already carrying it:
      the ten digits of `(55) 9999-0000` are dialled as they are. */
  lemma AreaCode55Unprefixed(raw: string)
    requires DigitsOnly(raw) == "5599990000"
    ensures NormalisePhone(raw) == "5599990000"
  {
    assert "5599990000"[..2] == "55";
  }

  const TotalLead := "\n\U{1F4B0} *Valor Total: "

  /** The total line: empty unless a non-empty total is given, which it then
      carries. */
  function TotalLine(total: Option<string>): (r: string)
    ensures r == "" <==> !TruthyString(total)
    ensures TruthyString(total) ==> OccursAt(r, total.value, |TotalLead|)
  {
    if TruthyString(total) then
      var r := TotalLead + total.value + "*";
      assert r[|TotalLead|..|TotalLead| + |total.value|] == total.value;
      r
    else ""
  }

  /** The confirmation text. */
  function ConfirmationMessage(clientName: string, service: string, date: string, time: string, total: Option<string>): string
  {
    "Ol\U{00E1} *" + clientName + "*! \U{2702}\U{FE0F}\n\nSeu agendamento no *Sal\U{00E3}o Nexus* foi confirmado!\n\n"
    + "\U{1F4CB} *Servi\U{00E7}os:* " + service + TotalLine(total)
    + "\n\U{1F4C5} *Data:* " + date
    + "\n\U{23F0} *Hor\U{00E1}rio:* " + time
    + "\n\nEstamos ansiosas para atend\U{00EA}-la! \U{1F338}"
  }

  const WaMe := "https://wa.me/"

  /** `https://wa.me/<number>?text=<encoded text>`; `encode` stands for
      `encodeURIComponent`. */
  function WhatsAppUrl(phone: string, text: string, encode: string -> string): string
  {
    WaMe + NormalisePhone(phone) + "?text=" + encode(text)
  }

  /** The link `sendWhatsAppConfirmation` opens. */
  function ConfirmationUrl(clientName: string, service: string, date: string, time: string,
                           clientPhone: string, total: Option<string>, encode: string -> string): string
  {
    WhatsAppUrl(clientPhone, ConfirmationMessage(clientName, service, date, time, total), encode)
  }

  /** Whatever the text and its encoding, the link's number field, up to the first `?`,
      is exactly the normalised phone. */
  lemma UrlDialsNormalisedPhone(phone: string, text: string, encode: string -> string)
    ensures var u := WhatsAppUrl(phone, text, encode);
      StartsWith(u, WaMe) && IndexOf(u[|WaMe|..], "?") == Some(|NormalisePhone(phone)|)
      && u[|WaMe|..|WaMe| + |NormalisePhone(phone)|] == NormalisePhone(phone)
  {
    var n := NormalisePhone(phone);
    var u := WhatsAppUrl(phone, text, encode);
    var rest := u[|WaMe|..];
    assert rest == n + "?text=" + encode(text);
    assert OccursAt(rest, "?", |n|);
    forall j | 0 <= j < |n| ensures !OccursAt(rest, "?", j) {
      assert rest[j] == n[j] && IsDigit(n[j]);
    }
    IndexOfIs(rest, "?", |n|);
  }
}
