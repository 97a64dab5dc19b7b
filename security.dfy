/** `security.js`: sanitising and escaping of text, the field validators
    (e-mail, date, time, intensity, alphanumeric), the shape checks applied
    to data read back from local storage, and the rate limiter. A value that
    is not a string is `None` where the source tests `typeof` first. */
module Security {
  import opened Wrappers
  import opened Seqs
  import opened Text
  import opened Calendar

  function IsChar(c: char): char -> bool {
    (x: char) => x == c
  }

  // ---------------------------------------------------------------------
  // sanitizeInput

  const DefaultMaxLength := 1000

  /** No `<` is followed, anywhere later, by a `>`: the string holds no
      match of `<[^>]*>`, since the first `>` after a `<` would end one. */
  predicate NoTag(s: string) {
    forall i, j :: 0 <= i < j < |s| && s[i] == '<' ==> s[j] != '>'
  }

  /** `s.replace(/<[^>]*>/g, '')`: from left to right, each `<` that has a
      `>` somewhere after it is removed together with everything up to and
      including the first such `>`. */
  function StripTags(s: string): (r: string)
    ensures forall i :: 0 <= i < |r| ==> r[i] in s
    ensures NoTag(r)
    decreases |s|
  {
    if |s| == 0 then []
    else if s[0] == '<' then
      match FirstIndex(s[1..], IsChar('>'))
      case Some(k) => StripTags(s[k + 2..])
      case None =>
        var rest := StripTags(s[1..]);
        assert forall j :: 0 <= j < |rest| ==> rest[j] != '>';
        [s[0]] + rest
    else [s[0]] + StripTags(s[1..])
  }

  /** The characters the second replacement removes: U+0000 to U+0008,
      U+000B, U+000C, U+000E to U+001F and U+007F (so tab, line feed and
      carriage return stay). */
  predicate IsStrippedControl(c: char) {
    c <= '\U{0008}' || c == '\U{000B}' || c == '\U{000C}'
    || ('\U{000E}' <= c <= '\U{001F}') || c == '\U{007F}'
  }

  function NotControl(): char -> bool {
    (c: char) => !IsStrippedControl(c)
  }

  /** Deleting characters cannot bring a `<` before a `>`. */
  lemma {:induction false} FilterKeepsNoTag(s: string, p: char -> bool)
    requires NoTag(s)
    ensures NoTag(Filter(s, p))
  {
    if |s| > 0 {
      FilterKeepsNoTag(s[1..], p);
      var rest := Filter(s[1..], p);
      if p(s[0]) && s[0] == '<' {
        forall j | 0 <= j < |rest| ensures rest[j] != '>' {
          assert rest[j] in s[1..];
        }
      }
    }
  }

  /** The end index `s.slice(0, end)` stops at: a negative `end` counts from
      the end of the string. */
  function SliceEnd(len: nat, end: int): (r: nat)
    ensures r <= len
    ensures end >= 0 ==> r <= end
  {
    if end < 0 then (if len + end < 0 then 0 else len + end)
    else if end > len then len else end
  }

  /** The text before the length cap: trimmed, tags removed, then the
      control characters removed. */
  function Clean(s: string): (r: string)
    ensures forall i :: 0 <= i < |r| ==> !IsStrippedControl(r[i]) && r[i] in s
    ensures NoTag(r)
  {
    var t := Trim(s);
    var u := StripTags(t);
    TrimFacts(s);
    FilterKeepsNoTag(u, NotControl());
    var v := Filter(u, NotControl());
    assert forall i :: 0 <= i < |v| ==> v[i] in u;
    v
  }

  /** `sanitizeInput(input, maxLength)`. */
  function SanitizeInput(input: Option<string>, maxLength: int): (r: string)
    ensures input.None? ==> r == []
    ensures maxLength >= 0 ==> |r| <= maxLength
    ensures forall i :: 0 <= i < |r| ==> !IsStrippedControl(r[i])
    ensures NoTag(r)
    ensures input.Some? ==> forall i :: 0 <= i < |r| ==> r[i] in input.value
    ensures input.Some? ==> |r| <= |Clean(input.value)| && r == Clean(input.value)[..|r|]
    ensures input.Some? && 0 <= maxLength <= |Clean(input.value)| ==> |r| == maxLength
    ensures input.Some? && maxLength >= |Clean(input.value)| ==> r == Clean(input.value)
  {
    if input.None? then []
    else
      var v := Clean(input.value);
      var n := SliceEnd(|v|, maxLength);
      var r := v[..n];
      assert |r| == n && r == v[..|r|];
      assert forall i :: 0 <= i < |r| ==> r[i] == v[i];
      r
  }

  /** Text without a tag loses nothing to the tag removal. */
  lemma {:induction false} StripTagsKeepsPlain(s: string)
    requires NoTag(s)
    ensures StripTags(s) == s
    decreases |s|
  {
    if |s| > 0 {
      assert NoTag(s[1..]) by {
        forall i, j | 0 <= i < j < |s[1..]| && s[1..][i] == '<' ensures s[1..][j] != '>' {
          assert s[i + 1] == '<';
        }
      }
      StripTagsKeepsPlain(s[1..]);
      if s[0] == '<' {
        assert forall j :: 0 <= j < |s[1..]| ==> s[1..][j] != '>' by {
          forall j | 0 <= j < |s[1..]| ensures s[1..][j] != '>' {
            assert s[j + 1] == s[1..][j];
          }
        }
        assert FirstIndex(s[1..], IsChar('>')).None?;
      }
      assert s == [s[0]] + s[1..];
    }
  }

  /** Ordinary text (no white space at either end, no tag and no stripped
      control character) comes through the cleaning unchanged. */
  lemma CleanKeepsPlain(s: string)
    requires |s| == 0 || (!IsJsSpace(s[0]) && !IsJsSpace(s[|s| - 1]))
    requires NoTag(s)
    requires forall i :: 0 <= i < |s| ==> !IsStrippedControl(s[i])
    ensures Clean(s) == s
  {
    TrimKeepsUntrimmed(s);
    StripTagsKeepsPlain(s);
    FilterKeepsAll(s, NotControl());
  }

  /** `sanitizeInput` returns ordinary text that fits the cap as it is. */
  lemma SanitizeKeepsPlain(s: string, maxLength: int)
    requires |s| == 0 || (!IsJsSpace(s[0]) && !IsJsSpace(s[|s| - 1]))
    requires NoTag(s)
    requires forall i :: 0 <= i < |s| ==> !IsStrippedControl(s[i])
    requires |s| <= maxLength
    ensures SanitizeInput(Some(s), maxLength) == s
  {
    CleanKeepsPlain(s);
  }

  // ---------------------------------------------------------------------
  // escapeHtml

  /** `htmlEscapes`: each special character and its entity. */
  const Entities: seq<(char, string)> := [
    ('&', "&amp;"), ('<', "&lt;"), ('>', "&gt;"), ('"', "&quot;"),
    ('\'', "&#x27;"), ('/', "&#x2F;"), ('`', "&#x60;"), ('=', "&#x3D;")
  ]

  function IsEntityFor(c: char): ((char, string)) -> bool {
    (e: (char, string)) => e.0 == c
  }

  predicate IsHtmlSpecial(c: char) {
    c == '&' || c == '<' || c == '>' || c == '"' || c == '\'' || c == '/' || c == '`' || c == '='
  }

  /** The characters that cannot appear in escaped output (`&` can, as the
      start of an entity). */
  predicate IsMarkupChar(c: char) {
    IsHtmlSpecial(c) && c != '&'
  }

  /** An entity: `&`, then characters other than `;`, then `;`. */
  predicate EntityShape(e: string) {
    |e| >= 2 && e[0] == '&' && e[|e| - 1] == ';' && forall i :: 0 <= i < |e| - 1 ==> e[i] != ';'
  }

  /** What makes a table of entities decodable: `&` has an entry, every
      entity has the shape above, and no two entries share an entity. */
  predicate TableOk(tab: seq<(char, string)>) {
    |tab| > 0 && tab[0].0 == '&'
    && (forall k :: 0 <= k < |tab| ==> EntityShape(tab[k].1))
    && (forall j, k :: 0 <= j < k < |tab| ==> tab[j].1 != tab[k].1)
  }

  lemma EntitiesShaped()
    ensures |Entities| > 0 && Entities[0].0 == '&'
    ensures forall k :: 0 <= k < |Entities| ==> EntityShape(Entities[k].1)
  {
    assert EntityShape("&amp;") && EntityShape("&lt;") && EntityShape("&gt;");
    assert EntityShape("&quot;") && EntityShape("&#x27;") && EntityShape("&#x2F;");
    assert EntityShape("&#x60;") && EntityShape("&#x3D;");
  }

  lemma EntitiesDistinct()
    ensures forall j, k :: 0 <= j < k < |Entities| ==> Entities[j].1 != Entities[k].1
  {
    forall j, k | 0 <= j < k < |Entities| ensures Entities[j].1 != Entities[k].1 {
      if k < 4 {
        assert Entities[j].1[1] != Entities[k].1[1];
      } else if j >= 4 {
        assert Entities[j].1[3] != Entities[k].1[3] || Entities[j].1[4] != Entities[k].1[4];
      } else {
        assert Entities[j].1[1] != Entities[k].1[1];
      }
    }
  }

  /** The table of `escapeHtml` is decodable and its entities hold no markup
      character. */
  lemma EntitiesOk()
    ensures TableOk(Entities)
    ensures forall k, i :: 0 <= k < |Entities| && 0 <= i < |Entities[k].1| ==>
      !IsMarkupChar(Entities[k].1[i])
  {
    EntitiesShaped();
    EntitiesDistinct();
  }

  /** The replacement for one character under table `tab`. */
  function EscapeCharWith(tab: seq<(char, string)>, c: char): (r: string)
    ensures (exists k :: 0 <= k < |tab| && r == tab[k].1) || r == [c]
    ensures (forall k :: 0 <= k < |tab| ==> tab[k].0 != c) ==> r == [c]
  {
    match FirstIndex(tab, IsEntityFor(c))
    case Some(k) => tab[k].1
    case None => [c]
  }

  /** The replacement for one character: markup characters never come out,
      and other characters than the special ones stay as they are. */
  function EscapeChar(c: char): (r: string)
    ensures forall i :: 0 <= i < |r| ==> !IsMarkupChar(r[i])
    ensures !IsHtmlSpecial(c) ==> r == [c]
  {
    EntitiesOk();
    EscapeCharWith(Entities, c)
  }

  function Escape(s: string): (r: string)
    ensures forall i :: 0 <= i < |r| ==> !IsMarkupChar(r[i])
  {
    if |s| == 0 then [] else EscapeChar(s[0]) + Escape(s[1..])
  }

  /** `escapeHtml(str)`. */
  function EscapeHtml(str: Option<string>): string {
    if str.None? then [] else Escape(str.value)
  }

  /** Text without special characters is left as it is. */
  lemma {:induction false} EscapeIdentity(s: string)
    requires forall i :: 0 <= i < |s| ==> !IsHtmlSpecial(s[i])
    ensures Escape(s) == s
  {
    if |s| > 0 {
      assert EscapeChar(s[0]) == [s[0]];
      EscapeIdentity(s[1..]);
      assert Escape(s) == [s[0]] + s[1..];
    }
  }

  // Decoding, to show that escaping loses nothing

  function StartsWithEntity(r: string): ((char, string)) -> bool {
    (e: (char, string)) => |e.1| > 0 && e.1 <= r
  }

  /** Replaces each entity of `tab` by its character, left to right. */
  function Unescape(tab: seq<(char, string)>, r: string): string
    decreases |r|
  {
    if |r| == 0 then []
    else match FirstIndex(tab, StartsWithEntity(r))
      case Some(k) => [tab[k].0] + Unescape(tab, r[|tab[k].1|..])
      case None => [r[0]] + Unescape(tab, r[1..])
  }

  /** An entity followed by anything starts with no other entity: each
      entity ends at its only `;`. */
  lemma EntityPrefixUnique(tab: seq<(char, string)>, j: nat, k: nat, t: string)
    requires TableOk(tab) && j < |tab| && k < |tab|
    requires tab[j].1 <= tab[k].1 + t
    ensures j == k
  {
    var ej := tab[j].1;
    var ek := tab[k].1;
    assert EntityShape(ej) && EntityShape(ek);
    var n := if |ej| < |ek| then |ej| else |ek|;
    assert ej[n - 1] == (ek + t)[n - 1] == ek[n - 1];
    assert |ej| == |ek|;
    assert ej == (ek + t)[..|ej|] == ek;
  }

  lemma UnescapeStep(tab: seq<(char, string)>, c: char, t: string)
    requires TableOk(tab)
    ensures Unescape(tab, EscapeCharWith(tab, c) + t) == [c] + Unescape(tab, t)
  {
    var e := EscapeCharWith(tab, c);
    var f := StartsWithEntity(e + t);
    match FirstIndex(tab, IsEntityFor(c))
    case Some(k) => {
      assert EntityShape(tab[k].1);
      forall j | 0 <= j < k ensures !f(tab[j]) {
        if f(tab[j]) {
          EntityPrefixUnique(tab, j, k, t);
        }
      }
      FirstIndexUnique(tab, f, k);
      assert (e + t)[|e|..] == t;
    }
    case None => {
      assert c != '&';
      forall j | 0 <= j < |tab| ensures !f(tab[j]) {
        assert EntityShape(tab[j].1);
      }
      assert (e + t)[1..] == t;
    }
  }

  /** `Escape` with the entities of table `tab`. */
  function EscapeWith(tab: seq<(char, string)>, s: string): string {
    if |s| == 0 then [] else EscapeCharWith(tab, s[0]) + EscapeWith(tab, s[1..])
  }

  /** Decoding text escaped with a decodable table gives back the text. */
  lemma {:induction false} EscapeWithRoundTrip(tab: seq<(char, string)>, s: string)
    requires TableOk(tab)
    ensures Unescape(tab, EscapeWith(tab, s)) == s
  {
    if |s| > 0 {
      EscapeWithRoundTrip(tab, s[1..]);
      UnescapeStep(tab, s[0], EscapeWith(tab, s[1..]));
      assert [s[0]] + s[1..] == s;
    }
  }

  lemma {:induction false} EscapeIsEscapeWith(s: string)
    ensures Escape(s) == EscapeWith(Entities, s)
  {
    if |s| > 0 {
      EscapeIsEscapeWith(s[1..]);
      assert EscapeChar(s[0]) == EscapeCharWith(Entities, s[0]);
    }
  }

  /** Decoding the escaped text gives back the text: escaping is injective. */
  lemma EscapeRoundTrip(s: string)
    ensures Unescape(Entities, Escape(s)) == s
  {
    EntitiesOk();
    EscapeIsEscapeWith(s);
    EscapeWithRoundTrip(Entities, s);
  }

  // ---------------------------------------------------------------------
  // validateEmail

  /** `s.split(c)`: the pieces between occurrences of `c`. */
  function Split(s: string, c: char): (r: seq<string>)
    ensures |r| >= 1
    decreases |s|
  {
    match FirstIndex(s, IsChar(c))
    case None => [s]
    case Some(i) => [s[..i]] + Split(s[i + 1..], c)
  }

  /** `c` occurs in `s` at `i` and nowhere else. */
  predicate SoleAt(s: string, c: char, i: int) {
    0 <= i < |s| && s[i] == c && forall k :: 0 <= k < |s| && k != i ==> s[k] != c
  }

  lemma SplitNone(s: string, c: char)
    ensures |Split(s, c)| == 1 <==> forall k :: 0 <= k < |s| ==> s[k] != c
  {
  }

  /** Splitting gives two pieces exactly when `c` occurs once, and the
      pieces are what comes before and after it. */
  lemma SplitTwo(s: string, c: char)
    ensures |Split(s, c)| == 2 <==> exists i :: SoleAt(s, c, i)
    ensures forall i :: SoleAt(s, c, i) ==> Split(s, c) == [s[..i], s[i + 1..]]
  {
    match FirstIndex(s, IsChar(c))
    case None => {
    }
    case Some(i) => {
      var rest := s[i + 1..];
      SplitNone(rest, c);
      assert forall k :: 0 <= k < |rest| ==> rest[k] == s[i + 1 + k];
      if |Split(s, c)| == 2 {
        assert SoleAt(s, c, i);
      }
      forall i' | SoleAt(s, c, i') ensures Split(s, c) == [s[..i'], s[i' + 1..]] {
        assert i' == i;
      }
    }
  }

  const MaxEmailLength := 254
  const MaxLocalLength := 64
  const MaxDomainLength := 253

  /** `[a-zA-Z0-9.!#$%&'*+/=?^_\`{|}~-]`. */
  predicate IsLocalChar(c: char) {
    IsAsciiLetter(c) || IsDigit(c)
    || c == '.' || c == '!' || c == '#' || c == '$' || c == '%' || c == '&' || c == '\''
    || c == '*' || c == '+' || c == '/' || c == '=' || c == '?' || c == '^' || c == '_'
    || c == '`' || c == '{' || c == '|' || c == '}' || c == '~' || c == '-'
  }

  /** `[a-zA-Z0-9.-]`. */
  predicate IsDomainChar(c: char) {
    IsAsciiLetter(c) || IsDigit(c) || c == '.' || c == '-'
  }

  predicate AllChars(s: string, p: char -> bool) {
    forall i :: 0 <= i < |s| ==> p(s[i])
  }

  function LocalChar(): char -> bool {
    (c: char) => IsLocalChar(c)
  }

  function DomainChar(): char -> bool {
    (c: char) => IsDomainChar(c)
  }

  /** `validateEmail(email)`, check by check. */
  function ValidateEmail(email: Option<string>): bool {
    if email.None? then false
    else
      var e := email.value;
      if |e| > MaxEmailLength then false
      else
        var parts := Split(e, '@');
        if |parts| != 2 then false
        else
          var local := parts[0];
          var domain := parts[1];
          if |local| == 0 || |local| > MaxLocalLength then false
          else if |domain| == 0 || |domain| > MaxDomainLength then false
          else if '.' !in domain then false
          else if !AllChars(local, LocalChar()) || !AllChars(domain, DomainChar()) then false
          else if domain[0] == '.' || domain[|domain| - 1] == '.'
               || domain[0] == '-' || domain[|domain| - 1] == '-' then false
          else true
  }

  predicate LocalPartOk(local: string) {
    1 <= |local| <= MaxLocalLength && AllChars(local, LocalChar())
  }

  predicate DomainOk(domain: string) {
    1 <= |domain| <= MaxDomainLength && '.' in domain && AllChars(domain, DomainChar())
    && domain[0] != '.' && domain[0] != '-'
    && domain[|domain| - 1] != '.' && domain[|domain| - 1] != '-'
  }

  /** An address is accepted exactly when it is at most 254 characters long
      and has a single `@` between a valid local part and a valid domain. */
  lemma ValidateEmailIff(e: string)
    ensures ValidateEmail(Some(e)) <==>
      |e| <= MaxEmailLength
      && exists i :: SoleAt(e, '@', i) && LocalPartOk(e[..i]) && DomainOk(e[i + 1..])
  {
    SplitTwo(e, '@');
    if ValidateEmail(Some(e)) {
      var i :| SoleAt(e, '@', i);
      assert LocalPartOk(e[..i]) && DomainOk(e[i + 1..]);
    }
  }

  // ---------------------------------------------------------------------
  // validateTime

  /** `/^\d{2}:\d{2}$/`. */
  predicate TimeFormat(s: string) {
    |s| == 5 && IsDigit(s[0]) && IsDigit(s[1]) && s[2] == ':' && IsDigit(s[3]) && IsDigit(s[4])
  }

  function Hours(s: string): nat
    requires TimeFormat(s)
  {
    DigitsValue(s[..2])
  }

  function Minutes(s: string): nat
    requires TimeFormat(s)
  {
    DigitsValue(s[3..])
  }

  /** `validateTime(time)`. */
  function ValidateTime(time: Option<string>): (r: Option<string>)
    ensures r.Some? ==> r == time
  {
    if time.None? || !TimeFormat(time.value) then None
    else if Hours(time.value) > 23 then None
    else if Minutes(time.value) > 59 then None
    else time
  }

  /** `HH:MM` for an hour and a minute. */
  function FormatClock(h: nat, m: nat): string {
    PadStart2(NatToString(h)) + ":" + PadStart2(NatToString(m))
  }

  /** Every hour 0-23 and minute 0-59, written `HH:MM`, is accepted. */
  lemma FormatClockAccepted(h: nat, m: nat)
    requires h <= 23 && m <= 59
    ensures TimeFormat(FormatClock(h, m))
    ensures Hours(FormatClock(h, m)) == h && Minutes(FormatClock(h, m)) == m
    ensures ValidateTime(Some(FormatClock(h, m))) == Some(FormatClock(h, m))
  {
    PaddedValue(h);
    PaddedValue(m);
    ClockParts(PadStart2(NatToString(h)), PadStart2(NatToString(m)));
  }

  /** Two two-digit fields joined by a colon are in `HH:MM` form, and the
      fields read back. */
  lemma ClockParts(a: string, b: string)
    requires |a| == 2 && AllDigits(a) && |b| == 2 && AllDigits(b)
    ensures TimeFormat(a + ":" + b) && (a + ":" + b)[..2] == a && (a + ":" + b)[3..] == b
  {
    var t := a + ":" + b;
    assert t[0] == a[0] && t[1] == a[1] && t[2] == ':' && t[3] == b[0] && t[4] == b[1];
  }

  /** Every accepted string is the `HH:MM` form of its own hour and minute,
      both in range. */
  lemma AcceptedTimeIsFormatted(s: string)
    requires ValidateTime(Some(s)) == Some(s)
    ensures Hours(s) <= 23 && Minutes(s) <= 59 && s == FormatClock(Hours(s), Minutes(s))
  {
    PaddedOfValue(s[..2]);
    PaddedOfValue(s[3..]);
    assert s == s[..2] + ":" + s[3..];
  }

  // ---------------------------------------------------------------------
  // validateIntensity

  /** The longest prefix of decimal digits. */
  function DigitPrefix(s: string): (r: string)
    ensures AllDigits(r) && |r| <= |s|
  {
    if |s| > 0 && IsDigit(s[0]) then [s[0]] + DigitPrefix(s[1..]) else []
  }

  /** `parseInt(s, 10)` on the string form of the value: leading whitespace
      skipped, then an optional sign and the longest run of digits; no
      digits is NaN (None). */
  function ParseInt(s: string): Option<int> {
    if |s| > 0 && IsJsSpace(s[0]) then ParseInt(s[1..]) else ParseSigned(s)
  }

  /** An optional sign, then the longest run of digits. */
  function ParseSigned(t: string): Option<int> {
    var negative := |t| > 0 && t[0] == '-';
    var body := if |t| > 0 && (t[0] == '-' || t[0] == '+') then t[1..] else t;
    var digits := DigitPrefix(body);
    if |digits| == 0 then None
    else
      var magnitude: int := DigitsValue(digits);
      Some(if negative then -magnitude else magnitude)
  }

  function Clamp(x: int, lo: int, hi: int): int {
    if x < lo then lo else if x > hi then hi else x
  }

  /** `validateIntensity(value)`, for the string form of the value. */
  function ValidateIntensity(value: string): (r: int)
    ensures 1 <= r <= 5
    ensures ParseInt(value).None? ==> r == 3
  {
    match ParseInt(value)
    case None => 3
    case Some(n) => Clamp(n, 1, 5)
  }

  lemma {:induction false} DigitPrefixOfDigits(s: string)
    requires AllDigits(s)
    ensures DigitPrefix(s) == s
  {
    if |s| > 0 {
      DigitPrefixOfDigits(s[1..]);
      assert [s[0]] + s[1..] == s;
    }
  }

  /** A run of digits reads back as its value. */
  lemma ParseDigits(s: string)
    requires |s| > 0 && AllDigits(s)
    ensures ParseInt(s) == Some(DigitsValue(s) as int)
  {
    DigitPrefixOfDigits(s);
  }

  /** A minus sign and a run of digits read back as the negated value. */
  lemma ParseNegativeDigits(s: string)
    requires |s| > 0 && AllDigits(s)
    ensures ParseInt("-" + s) == Some(-(DigitsValue(s) as int))
  {
    var v := "-" + s;
    assert v[0] == '-' && v[1..] == s;
    DigitPrefixOfDigits(s);
  }

  /** A written number reads back as itself, so the intensities 1 to 5
      pass unchanged and larger numbers become 5. */
  lemma IntensityOfNumeral(k: nat)
    ensures ParseInt(NatToString(k)) == Some(k)
    ensures ValidateIntensity(NatToString(k)) == Clamp(k, 1, 5)
  {
    ParseDigits(NatToString(k));
    NatToStringRoundTrip(k);
  }

  /** A written negative number, `-0` included, becomes 1. */
  lemma IntensityOfNegative(s: string)
    requires |s| > 0 && AllDigits(s)
    ensures ValidateIntensity("-" + s) == 1
  {
    ParseNegativeDigits(s);
  }

  // ---------------------------------------------------------------------
  // isAlphanumeric

  /** `isAlphanumeric(str)`: `/^[a-zA-Z0-9]+$/`. */
  function IsAlphanumeric(str: Option<string>): (r: bool)
    ensures r <==> (str.Some? && |str.value| > 0
      && forall i :: 0 <= i < |str.value| ==> IsAsciiLetter(str.value[i]) || IsDigit(str.value[i]))
  {
    str.Some? && |str.value| > 0 && AllAlnum(str.value)
  }

  /** `[a-zA-Z0-9]*`, matched character by character. */
  function AllAlnum(s: string): (r: bool)
    ensures r <==> forall i :: 0 <= i < |s| ==> IsAsciiLetter(s[i]) || IsDigit(s[i])
  {
    |s| == 0 || ((IsAsciiLetter(s[0]) || IsDigit(s[0])) && AllAlnum(s[1..]))
  }

  // ---------------------------------------------------------------------
  // validateDate

  /** `/^\d{4}-\d{2}-\d{2}$/`. */
  predicate DateFormat(s: string) {
    |s| == 10 && AllDigits(s[..4]) && s[4] == '-' && AllDigits(s[5..7]) && s[7] == '-'
    && AllDigits(s[8..])
  }

  function YearOf(s: string): nat requires DateFormat(s) { DigitsValue(s[..4]) }
  function MonthOf(s: string): nat requires DateFormat(s) { DigitsValue(s[5..7]) }
  function DayOf(s: string): nat requires DateFormat(s) { DigitsValue(s[8..]) }

  const MinYear := 1900
  const MaxYear := 2100

  /** `validateDate(date)` at the moment `now`: the date must be well formed,
      a real calendar date between 1900 and 2100, and its midnight must lie
      between `now` ten years back and `now` one year ahead. */
  function ValidateDate(date: Option<string>, now: Clock): (r: Option<string>)
    requires ValidClock(now) && now.year >= 10
    ensures r.Some? ==> r == date
  {
    if date.None? || !DateFormat(date.value) then None
    else
      var s := date.value;
      var y, m, d := YearOf(s), MonthOf(s), DayOf(s);
      if y < MinYear || y > MaxYear then None
      else if m < 1 || m > 12 then None
      else if d < 1 || d > 31 then None
      else
        var parsed := MakeDate(y, m, d);
        if parsed != Date(y, m, d) then None
        else
          var t := Timestamp(Clock(y, m, d, 0));
          if t > Timestamp(ShiftYears(now, 1)) || t < Timestamp(ShiftYears(now, -10)) then None
          else date
  }

  /** A date is accepted exactly when it is well formed, real, within the
      years 1900-2100 and, as a midnight, inside the window. */
  lemma ValidateDateIff(s: string, now: Clock)
    requires ValidClock(now) && now.year >= 10
    ensures ValidateDate(Some(s), now) == Some(s) <==>
      DateFormat(s) && MinYear <= YearOf(s) <= MaxYear
      && IsRealDate(YearOf(s), MonthOf(s), DayOf(s))
      && Timestamp(ShiftYears(now, -10)) <= Timestamp(Clock(YearOf(s), MonthOf(s), DayOf(s), 0))
      && Timestamp(Clock(YearOf(s), MonthOf(s), DayOf(s), 0)) <= Timestamp(ShiftYears(now, 1))
  {
  }

  /** 29 February exists only in leap years: in a year that is not one, it
      is refused whatever the clock says. */
  lemma NoFebruary29(s: string, now: Clock)
    requires ValidClock(now) && now.year >= 10
    requires DateFormat(s) && MonthOf(s) == 2 && DayOf(s) == 29 && !IsLeap(YearOf(s))
    ensures ValidateDate(Some(s), now).None?
  {
  }

  // ---------------------------------------------------------------------
  // Shape checks for data read back from local storage

  /** A parsed JSON value. Numbers keep only an integer stand-in: the
      checks look at `typeof` alone. */
  datatype Json =
    | JNull
    | JBool(b: bool)
    | JNumber(n: int)
    | JString(s: string)
    | JArray(items: seq<Json>)
    | JObject(fields: map<string, Json>)

  /** `typeof v === 'object' && v !== null`: arrays are objects too. */
  predicate IsObject(v: Json) {
    v.JArray? || v.JObject?
  }

  predicate HasString(v: Json, key: string) {
    v.JObject? && key in v.fields && v.fields[key].JString?
  }

  predicate HasNumber(v: Json, key: string) {
    v.JObject? && key in v.fields && v.fields[key].JNumber?
  }

  predicate IsSymptomItem(v: Json) {
    IsObject(v) && HasString(v, "id") && HasString(v, "type") && HasNumber(v, "intensity")
  }

  predicate IsNotificationItem(v: Json) {
    IsObject(v) && HasString(v, "id") && HasString(v, "type") && HasString(v, "title")
  }

  /** `items.every(p)`, stopping at the first failure. */
  function Every(items: seq<Json>, p: Json -> bool): (r: bool)
    ensures r <==> forall i :: 0 <= i < |items| ==> p(items[i])
  {
    |items| == 0 || (p(items[0]) && Every(items[1..], p))
  }

  const MaxSymptoms := 10000
  const MaxNotifications := 100

  /** `validateSymptomsData(data)`. */
  function ValidateSymptomsData(data: Json): (r: bool)
    ensures r <==> (data.JArray? && |data.items| <= MaxSymptoms
      && forall i :: 0 <= i < |data.items| ==> IsSymptomItem(data.items[i]))
  {
    data.JArray? && |data.items| <= MaxSymptoms && Every(data.items, (v: Json) => IsSymptomItem(v))
  }

  /** `validateNotificationsData(data)`. */
  function ValidateNotificationsData(data: Json): (r: bool)
    ensures r <==> (data.JArray? && |data.items| <= MaxNotifications
      && forall i :: 0 <= i < |data.items| ==> IsNotificationItem(data.items[i]))
  {
    data.JArray? && |data.items| <= MaxNotifications
    && Every(data.items, (v: Json) => IsNotificationItem(v))
  }

  /** `validateUserData(data)`: an object with string `id`, `name` and `email`. */
  function ValidateUserData(data: Json): (r: bool)
    ensures r ==> data.JObject?
  {
    IsObject(data) && HasString(data, "id") && HasString(data, "name") && HasString(data, "email")
  }

  // ---------------------------------------------------------------------
  // rateLimit

  const DefaultMinInterval := 1000

  /** The closure `rateLimit(fn, minInterval)` returns, with its variable
      `lastCall`. `Call` says whether `fn` runs (otherwise the call returns
      null); the time is an input. */
  class RateLimiter {
    const minInterval: int
    var lastCall: int

    constructor (minInterval: int)
      ensures this.minInterval == minInterval && lastCall == 0
    {
      this.minInterval := minInterval;
      lastCall := 0;
    }

    method Call(now: int) returns (invoked: bool)
      modifies this
      ensures (invoked, lastCall) == Admit(minInterval, old(lastCall), now)
    {
      if now - lastCall < minInterval {
        return false;
      }
      lastCall := now;
      invoked := true;
    }
  }

  /** One call at time `now`: refused within `minInterval` of the last
      accepted call, which it then leaves as it was; otherwise accepted and
      recorded. */
  function Admit(minInterval: int, lastCall: int, now: int): (r: (bool, int))
    ensures r.0 <==> now - lastCall >= minInterval
    ensures r.1 == if r.0 then now else lastCall
  {
    if now - lastCall < minInterval then (false, lastCall) else (true, now)
  }

  /** The times of the accepted calls among calls made at `times`. */
  function Accepted(minInterval: int, lastCall: int, times: seq<int>): seq<int>
    decreases |times|
  {
    if |times| == 0 then []
    else
      var (ok, last) := Admit(minInterval, lastCall, times[0]);
      (if ok then [times[0]] else []) + Accepted(minInterval, last, times[1..])
  }

  /** Accepted calls are at least `minInterval` apart, the first one at
      least `minInterval` after the starting `lastCall`, whatever the times
      of the calls. */
  lemma {:induction false} AcceptedSpacing(minInterval: int, lastCall: int, times: seq<int>)
    ensures var a := Accepted(minInterval, lastCall, times);
      (|a| > 0 ==> a[0] - lastCall >= minInterval)
      && forall k :: 0 <= k < |a| - 1 ==> a[k + 1] - a[k] >= minInterval
    decreases |times|
  {
    if |times| > 0 {
      var (ok, last) := Admit(minInterval, lastCall, times[0]);
      AcceptedSpacing(minInterval, last, times[1..]);
    }
  }
}
