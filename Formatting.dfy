/** Display helpers of bot.py: phone-number formatting and the store
    branding tables (emoji, embed colour, description). */
module Formatting {
  import opened Wrappers
  import opened Text

  // ---------------------------------------------------------------- phone

  /** `format_phone_number`: the ten-digit US form, the eleven-digit form
      with a leading country code 1, or the input unchanged. */
  function FormatPhone(phone: string): (r: string)
    ensures var d := Digits(phone);
            |d| == 10 ==>
              |r| == 14 && r[0] == '(' && r[4] == ')' && r[5] == ' ' && r[9] == '-'
    ensures var d := Digits(phone);
            (|d| == 11 && d[0] == '1') ==>
              |r| == 17 && r[..4] == "+1 (" && r[7] == ')' && r[8] == ' ' && r[12] == '-'
    ensures var d := Digits(phone);
            !(|d| == 10 || (|d| == 11 && d[0] == '1')) ==> r == phone
  {
    var d := Digits(phone);
    if |d| == 10 then
      "(" + d[..3] + ") " + d[3..6] + "-" + d[6..]
    else if |d| == 11 && d[0] == '1' then
      "+1 (" + d[1..4] + ") " + d[4..7] + "-" + d[7..]
    else
      phone
  }

  lemma DigitsOfDigits(s: string)
    requires forall i :: 0 <= i < |s| ==> IsDigit(s[i])
    ensures Digits(s) == s
  {
  }

  /** Digits of `p1 + a + p2 + b + p3 + c` where a, b, c are all digits. */
  lemma DigitsOfLayout(p1: string, a: string, p2: string, b: string, p3: string, c: string)
    requires forall i :: 0 <= i < |a| ==> IsDigit(a[i])
    requires forall i :: 0 <= i < |b| ==> IsDigit(b[i])
    requires forall i :: 0 <= i < |c| ==> IsDigit(c[i])
    ensures Digits(p1 + a + p2 + b + p3 + c) == Digits(p1) + a + Digits(p2) + b + Digits(p3) + c
  {
    var s1 := p1 + a;
    var s2 := s1 + p2;
    var s3 := s2 + b;
    var s4 := s3 + p3;
    DigitsAppend(p1, a);
    DigitsAppend(s1, p2);
    DigitsAppend(s2, b);
    DigitsAppend(s3, p3);
    DigitsAppend(s4, c);
    DigitsOfDigits(a);
    DigitsOfDigits(b);
    DigitsOfDigits(c);
  }

  /** The digits of the ten-digit layout are the ten digits. */
  lemma TenDigitLayout(d: string)
    requires |d| == 10 && forall i :: 0 <= i < |d| ==> IsDigit(d[i])
    ensures Digits("(" + d[..3] + ") " + d[3..6] + "-" + d[6..]) == d
  {
    DigitsOfLayout("(", d[..3], ") ", d[3..6], "-", d[6..]);
    assert Digits("(") == [] && Digits(") ") == [] && Digits("-") == [];
    assert d[..3] + d[3..6] + d[6..] == d;
  }

  /** The digits of the eleven-digit layout are the eleven digits. */
  lemma ElevenDigitLayout(d: string)
    requires |d| == 11 && d[0] == '1' && forall i :: 0 <= i < |d| ==> IsDigit(d[i])
    ensures Digits("+1 (" + d[1..4] + ") " + d[4..7] + "-" + d[7..]) == d
  {
    DigitsOfLayout("+1 (", d[1..4], ") ", d[4..7], "-", d[7..]);
    assert Digits("+1 (") == "1" && Digits(") ") == [] && Digits("-") == [];
    assert "1" + d[1..4] + d[4..7] + d[7..] == d;
  }

  /** Formatting never adds, drops or reorders a digit: only punctuation changes. */
  lemma FormatPhoneKeepsDigits(phone: string)
    ensures Digits(FormatPhone(phone)) == Digits(phone)
  {
    var d := Digits(phone);
    if |d| == 10 {
      TenDigitLayout(d);
    } else if |d| == 11 && d[0] == '1' {
      ElevenDigitLayout(d);
    }
  }

  /** Formatting an already formatted number changes nothing. */
  lemma FormatPhoneIdempotent(phone: string)
    ensures FormatPhone(FormatPhone(phone)) == FormatPhone(phone)
  {
    FormatPhoneKeepsDigits(phone);
  }

  // ------------------------------------------------------------- branding

  datatype Branding = Branding(emoji: string, color: int, description: string)

  /** The fixed per-chain table of `get_enhanced_store_branding`. */
  function ChainBranding(chain: string): Option<Branding> {
    match chain
    case "Target" => Some(Branding("🎯", 0xCC0000, "Department Store"))
    case "Walmart" => Some(Branding("🏪", 0x0071CE, "Superstore"))
    case "Best Buy" => Some(Branding("🔌", 0x003F7F, "Electronics Store"))
    case "BJs" => Some(Branding("🛒", 0xFF6B35, "Wholesale Club"))
    case "Costco" => Some(Branding("🏬", 0x004B87, "Warehouse Club"))
    case "Home Depot" => Some(Branding("🔨", 0xFF6600, "Home Improvement"))
    case "Lowes" => Some(Branding("🏠", 0x004990, "Home Improvement"))
    case "CVS" => Some(Branding("💊", 0xCC0000, "Pharmacy"))
    case "Walgreens" => Some(Branding("⚕️", 0x0089CF, "Pharmacy"))
    case "Starbucks" => Some(Branding("☕", 0x00704A, "Coffee Shop"))
    case "Dunkin" => Some(Branding("🍩", 0xFF6600, "Coffee & Donuts"))
    case "McDonalds" => Some(Branding("🍟", 0xFFCC00, "Fast Food"))
    case "Shell" => Some(Branding("⛽", 0xFFDE00, "Gas Station"))
    case "Mobil" => Some(Branding("⛽", 0xFF0000, "Gas Station"))
    case "BofA" => Some(Branding("🏦", 0x012169, "Bank"))
    case "TD Bank" => Some(Branding("🏦", 0x00B04F, "Bank"))
    case "Chase" => Some(Branding("🏦", 0x005DAA, "Bank"))
    case _ => None
  }

  const KnownCategories: seq<string> :=
    ["Department", "Superstore", "Electronics", "Wholesale", "Hardware", "Pharmacy",
     "Grocery", "Coffee", "Fast Food", "Gas", "Banking", "Auto"]

  /** `get_category_emoji`. */
  function CategoryEmoji(category: string): (r: string)
    ensures category !in KnownCategories ==> r == "🏢"
    ensures category in KnownCategories ==> r != "🏢"
  {
    match category
    case "Department" => "🏬"
    case "Superstore" => "🏪"
    case "Electronics" => "🔌"
    case "Wholesale" => "🛒"
    case "Hardware" => "🔨"
    case "Pharmacy" => "💊"
    case "Grocery" => "🥬"
    case "Coffee" => "☕"
    case "Fast Food" => "🍟"
    case "Gas" => "⛽"
    case "Banking" => "🏦"
    case "Auto" => "🚗"
    case _ => "🏢"
  }

  /** `get_category_color`; an unknown category gets the same colour as "Department". */
  function CategoryColor(category: string): (r: int)
    ensures category !in KnownCategories ==> r == 0x7289DA
    ensures 0 <= r <= 0xFFFFFF
  {
    match category
    case "Department" => 0x7289DA
    case "Superstore" => 0x5865F2
    case "Electronics" => 0x3498DB
    case "Wholesale" => 0x9B59B6
    case "Hardware" => 0xE67E22
    case "Pharmacy" => 0xE74C3C
    case "Grocery" => 0x2ECC71
    case "Coffee" => 0x8B4513
    case "Fast Food" => 0xF39C12
    case "Gas" => 0xF1C40F
    case "Banking" => 0x34495E
    case "Auto" => 0x95A5A6
    case _ => 0x7289DA
  }

  /** The branding before the quality override: the chain's entry, or one built from the category. */
  function BaseBranding(chain: string, category: string): (r: Branding)
    ensures ChainBranding(chain).Some? ==> r == ChainBranding(chain).value
    ensures ChainBranding(chain).None? ==>
              r.emoji == CategoryEmoji(category) && r.color == CategoryColor(category)
              && r.description == (if category == "" then "Store" else category + " Store")
  {
    ChainBranding(chain).GetOr(
      Branding(CategoryEmoji(category), CategoryColor(category),
               if category != "" then category + " Store" else "Store"))
  }

  /** `get_enhanced_store_branding`: the quality score overrides the colour only. */
  function StoreBranding(chain: string, category: string, quality: real): (r: Branding)
    ensures quality >= 8.0 ==> r.color == 0xFFD700
    ensures 6.0 <= quality < 8.0 ==> r.color == 0x32CD32
    ensures quality < 3.0 ==> r.color == 0xFF6B6B
    ensures 3.0 <= quality < 6.0 ==> r.color == BaseBranding(chain, category).color
    ensures r.emoji == BaseBranding(chain, category).emoji
    ensures r.description == BaseBranding(chain, category).description
  {
    var b := BaseBranding(chain, category);
    if quality >= 8.0 then b.(color := 0xFFD700)
    else if quality >= 6.0 then b.(color := 0x32CD32)
    else if quality < 3.0 then b.(color := 0xFF6B6B)
    else b
  }

  /** Emoji and description never depend on the quality score. */
  lemma BrandingIgnoresQualityExceptColor(chain: string, category: string, q1: real, q2: real)
    ensures StoreBranding(chain, category, q1).emoji == StoreBranding(chain, category, q2).emoji
    ensures StoreBranding(chain, category, q1).description == StoreBranding(chain, category, q2).description
  {
  }
}
