/**
 * `ResultsUI`: the end-of-run screen. The apple count is classified into a rank
 * (Gold, Silver, Bronze or Placed), and the panel and its two texts show the rank name
 * and "Apples Collected: n".
 *
 * The screen is a value: the panel slot (unassigned, or a panel that is shown or
 * hidden), the two text slots (unassigned, or holding a text) and the number of errors
 * logged. `Awake` and `ShowResults` map one screen to the next.
 */
module Results {

  datatype Rank = Gold | Silver | Bronze | Placed

  /** The rank's position in the order Placed < Bronze < Silver < Gold. */
  function Level(r: Rank): nat {
    match r
    case Placed => 0
    case Bronze => 1
    case Silver => 2
    case Gold => 3
  }

  /** The thresholds: Gold from 20 apples, Silver from 12, Bronze from 8, Placed below. */
  function RankFor(applesCollected: int): (r: Rank)
    ensures r == Gold <==> applesCollected >= 20
    ensures r == Silver <==> 12 <= applesCollected < 20
    ensures r == Bronze <==> 8 <= applesCollected < 12
    ensures r == Placed <==> applesCollected < 8
  {
    if applesCollected >= 20 then Gold
    else if applesCollected >= 12 then Silver
    else if applesCollected >= 8 then Bronze
    else Placed
  }

  /** More apples never give a lower rank. */
  lemma RankMonotone(a: int, b: int)
    requires a <= b
    ensures Level(RankFor(a)) <= Level(RankFor(b))
  {
  }

  /** The bare rank name the rank text shows; each rank has its own name. */
  function RankName(r: Rank): (s: string)
    ensures |s| > 0
    ensures s == "Gold" <==> r == Gold
    ensures s == "Silver" <==> r == Silver
    ensures s == "Bronze" <==> r == Bronze
    ensures s == "Placed" <==> r == Placed
  {
    match r
    case Gold => "Gold"
    case Silver => "Silver"
    case Bronze => "Bronze"
    case Placed => "Placed"
  }

  // ---------------------------------------------------------------------------
  // Decimal text of an int, as string interpolation writes it
  // ---------------------------------------------------------------------------

  function DigitChar(d: nat): (c: char)
    requires d < 10
    ensures '0' <= c <= '9'
  {
    "0123456789"[d]
  }

  function DigitValue(c: char): nat {
    if '0' <= c <= '9' then (c as int - '0' as int) as nat else 0
  }

  lemma DigitRoundTrip(d: nat)
    requires d < 10
    ensures DigitValue(DigitChar(d)) == d
  {
    assert "0123456789"[d] as int == '0' as int + d by {
      assert "0123456789"[0] == '0' && "0123456789"[1] == '1' && "0123456789"[2] == '2'
          && "0123456789"[3] == '3' && "0123456789"[4] == '4' && "0123456789"[5] == '5'
          && "0123456789"[6] == '6' && "0123456789"[7] == '7' && "0123456789"[8] == '8'
          && "0123456789"[9] == '9';
    }
  }

  predicate IsDigits(s: string) {
    forall k :: 0 <= k < |s| ==> '0' <= s[k] <= '9'
  }

  /** The decimal digits of `n`, most significant first, without leading zeros. */
  function NatToString(n: nat): (s: string)
    ensures 0 < |s| && IsDigits(s)
    ensures |s| > 1 ==> s[0] != '0'
  {
    if n < 10 then [DigitChar(n)] else NatToString(n / 10) + [DigitChar(n % 10)]
  }

  /** The value of a string of decimal digits. */
  function ParseDigits(s: string): nat {
    if s == [] then 0 else 10 * ParseDigits(s[..|s| - 1]) + DigitValue(s[|s| - 1])
  }

  /** Reading back the digits gives the number. */
  lemma {:induction false} ParseNatToString(n: nat)
    ensures ParseDigits(NatToString(n)) == n
  {
    var s := NatToString(n);
    if n < 10 {
      assert s[..0] == [];
      DigitRoundTrip(n);
    } else {
      ParseNatToString(n / 10);
      assert s[..|s| - 1] == NatToString(n / 10);
      DigitRoundTrip(n % 10);
    }
  }

  /** `$"{n}"` for an int: a minus sign before the digits of a negative number. */
  function IntToString(i: int): (s: string)
    ensures 0 < |s|
    ensures i < 0 <==> s[0] == '-'
    ensures i >= 0 ==> IsDigits(s)
    ensures i < 0 ==> IsDigits(s[1..])
  {
    if i < 0 then "-" + NatToString(-i) else NatToString(i)
  }

  function ParseInt(s: string): int {
    if |s| > 0 && s[0] == '-' then -(ParseDigits(s[1..]) as int) else ParseDigits(s)
  }

  /** The text of an int reads back as that int. */
  lemma ParseIntToString(i: int)
    ensures ParseInt(IntToString(i)) == i
  {
    var s := IntToString(i);
    if i < 0 {
      var n: nat := -i;
      assert s == "-" + NatToString(n);
      assert s[1..] == NatToString(n);
      ParseNatToString(n);
      assert ParseInt(s) == -(ParseDigits(s[1..]) as int);
    } else {
      assert s == NatToString(i);
      ParseNatToString(i);
    }
  }

  // ---------------------------------------------------------------------------
  // The screen
  // ---------------------------------------------------------------------------

  /** A serialized panel reference: not assigned, or a panel that is active or not. */
  datatype PanelSlot = NoPanel | Panel(active: bool)

  /** A serialized text reference: not assigned, or a text component and its text. */
  datatype TextSlot = NoText | Text(text: string)

  datatype Screen = Screen(panel: PanelSlot, rankText: TextSlot, applesText: TextSlot, errorsLogged: nat)

  const ApplesPrefix: string := "Apples Collected: "

  /** `Awake`: an assigned panel is hidden at game start; nothing else changes. */
  function Awake(s: Screen): (r: Screen)
    ensures s.panel.Panel? ==> r.panel == Panel(false)
    ensures s.panel == NoPanel ==> r.panel == NoPanel
    ensures r.rankText == s.rankText && r.applesText == s.applesText && r.errorsLogged == s.errorsLogged
  {
    if s.panel.Panel? then s.(panel := Panel(false)) else s
  }

  /** An assigned text slot gets the new text; an unassigned one stays unassigned. */
  function SetText(slot: TextSlot, text: string): (r: TextSlot)
    ensures slot == NoText ==> r == NoText
    ensures slot.Text? ==> r == Text(text)
  {
    if slot.Text? then Text(text) else NoText
  }

  /**
   * `ShowResults(applesCollected)`: without a panel one error is logged and nothing else
   * changes. Otherwise the panel is shown, an assigned rank text names the rank and an
   * assigned apples text reads "Apples Collected: " and the count, which reads back as
   * `applesCollected`.
   */
  function ShowResults(s: Screen, applesCollected: int): (r: Screen)
    ensures s.panel == NoPanel ==> r == s.(errorsLogged := s.errorsLogged + 1)
    ensures s.panel.Panel? ==>
              && r.panel == Panel(true)
              && r.errorsLogged == s.errorsLogged
              && (s.rankText == NoText <==> r.rankText == NoText)
              && (s.applesText == NoText <==> r.applesText == NoText)
              && (r.rankText.Text? ==> r.rankText.text == RankName(RankFor(applesCollected)))
              && (r.applesText.Text? ==>
                    && r.applesText.text == ApplesPrefix + IntToString(applesCollected)
                    && |r.applesText.text| > |ApplesPrefix|
                    && r.applesText.text[..|ApplesPrefix|] == ApplesPrefix
                    && ParseInt(r.applesText.text[|ApplesPrefix|..]) == applesCollected)
  {
    if s.panel == NoPanel then
      s.(errorsLogged := s.errorsLogged + 1)
    else
      var rank := RankFor(applesCollected);
      var text := ApplesPrefix + IntToString(applesCollected);
      assert text[|ApplesPrefix|..] == IntToString(applesCollected);
      ParseIntToString(applesCollected);
      Screen(Panel(true), SetText(s.rankText, RankName(rank)), SetText(s.applesText, text), s.errorsLogged)
  }
}
