/**
 * The mutation calculator of handlers/group_commands.py: number formatting,
 * the `!<digits>` command, the mutation keyboard and its callback encoding,
 * and the four-tier result table.
 *
 * Percentages are exact, in hundredths of a percent: 16.67% is 1667 and
 * 100% is 10000.
 */
module Calculator {
  import opened Common
  import opened Text
  import opened NumberFormat
  import opened Boost

  // ---------------------------------------------------------------- the mutation table

  /** One entry of MUTATIONS; `percents` are the four tier boosts in hundredths of a percent. */
  datatype Mutation = Mutation(emoji: string, nameRu: string, nameEn: string, percents: seq<nat>)

  /** The default mutation, "white circle" followed by the emoji variation selector. */
  const White: string := "\U{26AA}\U{FE0F}"

  /** The entries of MUTATIONS. */
  const Normal := Mutation(White, "Обычная", "Normal", [10000, 20000, 30000, 40000])
  const Golden := Mutation("\U{1F7E1}", "Золотая", "Golden", [5000, 7500, 10000, 12500])
  const Diamond := Mutation("\U{1F48E}", "Алмазная", "Diamond", [4000, 6000, 8000, 10000])
  const Electric := Mutation("\U{26A1}\U{FE0F}", "Электрическая", "Electric", [2500, 3750, 5000, 6250])
  const Fire := Mutation("\U{1F525}", "Огненная", "Fire", [2000, 3000, 4000, 5000])
  const Jurassic := Mutation("\U{1F996}", "Юрская", "Jurassic", [1667, 2500, 3333, 4167])
  const Snow := Mutation("\U{2744}\U{FE0F}", "Снежная", "Snow", [1667, 2500, 3333, 4167])
  const Halloween := Mutation("\U{1F383}", "Хэллуин", "Halloween", [1538, 2308, 3078, 3846])
  const Thanksgiving := Mutation("\U{1F983}", "Благодарения", "Thanksgiving", [1481, 2222, 2963, 3704])
  const Christmas := Mutation("\U{1F384}", "Рождество", "Christmas", [1333, 2000, 2667, 3333])

  /** MUTATIONS, in the dictionary's insertion order. */
  const Mutations: seq<Mutation> :=
    [Normal, Golden, Diamond, Electric, Fire, Jurassic, Snow, Halloween, Thanksgiving, Christmas]

  /** Every entry's `names_ru` and `names_en`, which are the same four levels for all ten. */
  const LevelsRu: seq<string> := ["Буря", "Аврора", "Вулкан", "Админ"]
  const LevelsEn: seq<string> := ["Storm", "Aurora", "Volcano", "Admin"]

  /** Four boosts, positive and strictly increasing. */
  predicate IncreasingBoosts(m: Mutation)
  {
    |m.percents| == 4 && 0 < m.percents[0] < m.percents[1] < m.percents[2] < m.percents[3]
  }

  /** Every mutation's boosts are positive and strictly increasing. */
  lemma MutationsIncreasing(m: Mutation)
    requires m in Mutations
    ensures IncreasingBoosts(m)
  {
  }

  /** The emojis are distinct and none contains the callback separator `_`. */
  lemma MutationsDistinct()
    ensures forall k :: 0 <= k < |Mutations| ==> '_' !in Mutations[k].emoji
    ensures forall j, k :: 0 <= j < k < |Mutations| ==> Mutations[j].emoji != Mutations[k].emoji
  {
  }

  /** `emoji in MUTATIONS` / `MUTATIONS[emoji]`. */
  function Lookup(emoji: string): (r: Option<Mutation>)
    ensures r.Some? <==> exists k :: 0 <= k < |Mutations| && Mutations[k].emoji == emoji
    ensures r.Some? ==> r.value in Mutations && r.value.emoji == emoji
  {
    LookupIn(Mutations, emoji)
  }

  function LookupIn(table: seq<Mutation>, emoji: string): (r: Option<Mutation>)
    ensures r.Some? <==> exists k :: 0 <= k < |table| && table[k].emoji == emoji
    ensures r.Some? ==> r.value in table && r.value.emoji == emoji
  {
    if table == [] then None
    else if table[0].emoji == emoji then Some(table[0])
    else
      var r := LookupIn(table[1..], emoji);
      assert forall k :: 1 <= k < |table| ==> table[k] == table[1..][k - 1];
      r
  }

  /** Looking up a table entry's own emoji finds that entry. */
  lemma LookupEntry(k: nat)
    requires k < |Mutations|
    ensures Lookup(Mutations[k].emoji) == Some(Mutations[k])
  {
    MutationsDistinct();
    var r := Lookup(Mutations[k].emoji);
    var j :| 0 <= j < |Mutations| && Mutations[j] == r.value;
    assert j == k;
  }

  // ---------------------------------------------------------------- languages

  /** The keys of TEXTS. */
  predicate KnownLanguage(lang: string) { lang == "ru" || lang == "en" }

  /** `name_{lang}` when the language is `ru`, otherwise `name_en`. */
  function MutationName(m: Mutation, lang: string): string
  {
    if lang == "ru" then m.nameRu else m.nameEn
  }

  function LevelName(lang: string, i: nat): string
    requires i < 4
  {
    if lang == "ru" then LevelsRu[i] else LevelsEn[i]
  }

  /** A stored user record, reduced to the field the calculator reads. */
  datatype StoredUser = StoredUser(language: Option<string>)

  /** `get_user_language`: `ru` exactly for a stored user whose language is `RUS`. */
  function UserLanguage(user: Option<StoredUser>): (lang: string)
    ensures KnownLanguage(lang)
    ensures lang == "ru" <==> user.Some? && user.value.language == Some("RUS")
  {
    if user.Some? && user.value.language == Some("RUS") then "ru" else "en"
  }

  // ---------------------------------------------------------------- the `!<digits>` command

  /**
   * The text filter `^!\d+$` followed by `strip()` and the value of the digits.
   * Python's `$` also matches just before a final newline, so one trailing
   * newline is admitted.
   */
  function ParseExclamation(text: string): (r: Option<nat>)
    ensures r.Some? ==> |text| >= 2 && text[0] == '!' && IsDigit(text[1])
  {
    var body := if text != [] && text[|text| - 1] == '\n' then text[..|text| - 1] else text;
    if |body| >= 2 && body[0] == '!' && AllDigits(body[1..]) then Some(DigitsValue(body[1..])) else None
  }

  /** `!` followed by the decimal form of `n` (with or without a final newline) yields `n`. */
  lemma ExclamationRoundTrip(n: nat, newline: bool)
    ensures ParseExclamation("!" + Digits(n) + (if newline then "\n" else "")) == Some(n)
  {
    DigitsDecimal(n);
    var text := "!" + Digits(n) + (if newline then "\n" else "");
    if newline {
      assert text[..|text| - 1] == "!" + Digits(n);
    } else {
      assert text == "!" + Digits(n);
    }
  }

  /** `!` followed by any non-empty run of digits, leading zeros included, yields their value. */
  lemma ExclamationDigits(d: string, newline: bool)
    requires |d| >= 1 && AllDigits(d)
    ensures ParseExclamation("!" + d + (if newline then "\n" else "")) == Some(DigitsValue(d))
  {
    var text := "!" + d + (if newline then "\n" else "");
    if newline {
      assert text[..|text| - 1] == "!" + d;
    } else {
      assert text == "!" + d;
    }
    assert ("!" + d)[1..] == d;
  }

  /**
   * Text that has anything but a digit after the `!`, other than one final
   * newline, is not a calculator command.
   */
  lemma ExclamationRejects(text: string, k: nat)
    requires 1 <= k < |text| && !IsDigit(text[k]) && !(k == |text| - 1 && text[k] == '\n')
    ensures ParseExclamation(text) == None
  {
    var body := if text[|text| - 1] == '\n' then text[..|text| - 1] else text;
    assert k < |body| && body[k] == text[k];
    assert body[1..][k - 1] == text[k];
  }

  // ---------------------------------------------------------------- keyboard and callbacks

  datatype Button = Button(text: string, data: string)

  /** The button for one mutation: label `emoji name`, data `mut_{emoji}_{number}_{lang}`. */
  function MutationButton(m: Mutation, number: int, lang: string): Button
  {
    Button(m.emoji + " " + MutationName(m, lang), "mut_" + m.emoji + "_" + IntToString(number) + "_" + lang)
  }

  /** The private-chat extra button, labelled with TEXTS[lang]["another_calc"]. */
  function CalcAnotherButton(lang: string): Button
    requires KnownLanguage(lang)
  {
    Button(if lang == "ru" then "🔢 Еще расчет" else "🔢 Another calculation", "calc_another_" + lang)
  }

  /** The table has ten entries. */
  lemma MutationCount()
    ensures |Mutations| == 10
  {
  }

  /**
   * Every mutation button decodes back to its own table entry, number and
   * language, and is labelled with that entry's emoji and its name in the
   * language.
   */
  lemma MutationButtonsDecode(number: int, lang: string)
    requires KnownLanguage(lang)
    ensures forall i :: 0 <= i < |Mutations| ==>
              ParseSelection(MutationButtons(number, lang)[i].data) == Selected(Mutations[i], number, lang) &&
              MutationButtons(number, lang)[i].text == Mutations[i].emoji + " " + MutationName(Mutations[i], lang)
  {
    forall i | 0 <= i < |Mutations|
      ensures ParseSelection(MutationButtons(number, lang)[i].data) == Selected(Mutations[i], number, lang)
    {
      SelectionRoundTrip(i, number, lang);
    }
  }

  /** One button per table entry, in table order. */
  function MutationButtons(number: int, lang: string): (buttons: seq<Button>)
    ensures |buttons| == |Mutations|
    ensures forall i :: 0 <= i < |buttons| ==> buttons[i] == MutationButton(Mutations[i], number, lang)
  {
    seq(|Mutations|, i requires 0 <= i < |Mutations| => MutationButton(Mutations[i], number, lang))
  }

  /** The first `n` pairs of `items`, one row per pair. */
  function Pairs<T>(items: seq<T>, n: nat): (rows: seq<seq<T>>)
    requires 2 * n <= |items|
    ensures |rows| == n
  {
    if n == 0 then [] else Pairs(items, n - 1) + [[items[2 * n - 2], items[2 * n - 1]]]
  }

  /** Row `k` of `Pairs` holds items `2k` and `2k + 1`. */
  lemma {:induction false} PairsAt<T>(items: seq<T>, n: nat)
    requires 2 * n <= |items|
    ensures forall k :: 0 <= k < n ==> Pairs(items, n)[k] == [items[2 * k], items[2 * k + 1]]
  {
    if n > 0 {
      PairsAt(items, n - 1);
    }
  }

  /** With `r <= 1` buttons pending after `k` full rows, the 1-based position `2k + r + 1` is even exactly when `r == 1`. */
  lemma Parity(k: nat, r: nat)
    requires r <= 1
    ensures (2 * k + r + 1) % 2 == 0 <==> r == 1
  {
  }

  /**
   * The row-building loop of `get_mutation_keyboard`: buttons are appended to
   * a row that is closed at every even 1-based position; a final half row is
   * kept.
   */
  method ArrangeInPairs<T>(items: seq<T>) returns (rows: seq<seq<T>>)
    ensures |items| % 2 == 0 ==> rows == Pairs(items, |items| / 2)
    ensures |items| % 2 == 1 ==> rows == Pairs(items, |items| / 2) + [[items[|items| - 1]]]
  {
    rows := [];
    var row: seq<T> := [];
    var i := 0;
    while i < |items|
      invariant 0 <= i <= |items|
      invariant i == 2 * |rows| + |row| && |row| <= 1
      invariant rows == Pairs(items, |rows|)
      invariant |row| == 1 ==> row == [items[i - 1]]
    {
      Parity(|rows|, |row|);
      row := row + [items[i]];
      if (i + 1) % 2 == 0 {
        assert row == [items[2 * |rows|], items[2 * |rows| + 1]];
        rows := rows + [row];
        row := [];
      }
      i := i + 1;
    }
    if row != [] {
      rows := rows + [row];
    }
  }

  /**
   * `get_mutation_keyboard`: the ten mutation buttons two per row in table
   * order, then one `calc_another_{lang}` row in private chats only.
   */
  method BuildKeyboard(number: int, lang: string, inPrivate: bool) returns (keyboard: seq<seq<Button>>)
    requires inPrivate ==> KnownLanguage(lang)
    ensures |keyboard| == if inPrivate then 6 else 5
    ensures forall k :: 0 <= k < 5 ==>
              keyboard[k] == [MutationButtons(number, lang)[2 * k], MutationButtons(number, lang)[2 * k + 1]]
    ensures inPrivate ==> keyboard[5] == [CalcAnotherButton(lang)]
  {
    var buttons := MutationButtons(number, lang);
    MutationCount();
    keyboard := ArrangeInPairs(buttons);
    PairsAt(buttons, 5);
    if inPrivate {
      keyboard := keyboard + [[CalcAnotherButton(lang)]];
    }
  }

  /** What `handle_mutation_selection` makes of a callback's data before calculating. */
  datatype Selection =
    | WrongFormat                 // not exactly four `_`-separated parts: "data error"
    | NumberNotInteger            // `int(parts[2])` raises
    | MutationNotFound            // the emoji is not in MUTATIONS
    | Selected(mutation: Mutation, number: int, lang: string)

  /**
   * The checks of `handle_mutation_selection` in their order: four parts,
   * then `int(parts[2])`, then `parts[1] in MUTATIONS`.
   */
  function ParseSelection(data: string): (r: Selection)
    ensures r == WrongFormat <==> |Split(data, '_')| != 4
    ensures |Split(data, '_')| == 4 ==> (r == NumberNotInteger <==> ParseInt(Split(data, '_')[2]).None?)
    ensures |Split(data, '_')| == 4 && ParseInt(Split(data, '_')[2]).Some? ==>
              (r == MutationNotFound <==> Lookup(Split(data, '_')[1]).None?)
    ensures r.Selected? ==>
              |Split(data, '_')| == 4 &&
              r.mutation in Mutations && r.mutation.emoji == Split(data, '_')[1] &&
              ParseInt(Split(data, '_')[2]) == Some(r.number) && r.lang == Split(data, '_')[3]
  {
    var parts := Split(data, '_');
    if |parts| != 4 then WrongFormat
    else match ParseInt(parts[2])
      case None => NumberNotInteger
      case Some(n) =>
        match Lookup(parts[1])
        case None => MutationNotFound
        case Some(m) => Selected(m, n, parts[3])
  }

  /** The four `_`-separated parts of a mutation button's data. */
  lemma MutationDataParts(m: Mutation, number: int, lang: string)
    requires '_' !in m.emoji && '_' !in lang
    ensures Split(MutationButton(m, number, lang).data, '_') == ["mut", m.emoji, IntToString(number), lang]
  {
    var num := IntToString(number);
    IntToStringChars(number, '_');
    var y := num + ['_'] + lang;
    var x := m.emoji + ['_'] + y;
    var d := "mut" + ['_'] + x;
    assert MutationButton(m, number, lang).data == d;
    SplitNone(lang, '_');
    SplitFirst(num, '_', lang);
    SplitFirst(m.emoji, '_', y);
    SplitFirst("mut", '_', x);
  }

  /**
   * Callback round trip: decoding the data of the button the keyboard built
   * for a table entry recovers that entry, the number and the language.
   */
  lemma SelectionRoundTrip(k: nat, number: int, lang: string)
    requires k < |Mutations| && KnownLanguage(lang)
    ensures ParseSelection(MutationButton(Mutations[k], number, lang).data) == Selected(Mutations[k], number, lang)
  {
    MutationsDistinct();
    MutationDataParts(Mutations[k], number, lang);
    IntToStringRoundTrip(number);
    LookupEntry(k);
  }

  /** Data with other than four parts is refused, whatever it holds. */
  lemma SelectionPartCount(data: string)
    requires Occurrences(data, '_') != 3
    ensures ParseSelection(data) == WrongFormat
  {
    SplitCount(data, '_');
  }

  /** `handle_calc_another`: the third part when there are exactly three, otherwise `ru`. */
  function CalcAnotherLanguage(data: string): string
  {
    var parts := Split(data, '_');
    if |parts| != 3 then "ru" else parts[2]
  }

  /** The extra button's data decodes to the language it was built with, and its press prompts in it. */
  lemma CalcAnotherRoundTrip(lang: string)
    requires KnownLanguage(lang)
    ensures CalcAnotherLanguage(CalcAnotherButton(lang).data) == lang
    ensures HandleCalcAnother(CalcAnotherButton(lang).data) == NewCalcPrompt(lang)
  {
    var x := "another" + ['_'] + lang;
    assert CalcAnotherButton(lang).data == "calc" + ['_'] + x;
    SplitNone(lang, '_');
    SplitFirst("another", '_', lang);
    SplitFirst("calc", '_', x);
  }

  /** What `handle_calc_another` answers: a prompt in a known language, or KeyError in TEXTS. */
  datatype CalcAnotherReply = NewCalcPrompt(lang: string) | UnknownTexts

  /**
   * `handle_calc_another`: with exactly three parts the third is the
   * language, and `TEXTS[lang]` raises when it is not a known one; any other
   * data prompts in `ru`.
   */
  function HandleCalcAnother(data: string): (r: CalcAnotherReply)
    ensures r.NewCalcPrompt? ==> KnownLanguage(r.lang)
    ensures Occurrences(data, '_') != 2 ==> r == NewCalcPrompt("ru")
    ensures |Split(data, '_')| == 3 ==>
              (KnownLanguage(Split(data, '_')[2]) <==> r == NewCalcPrompt(Split(data, '_')[2])) &&
              (!KnownLanguage(Split(data, '_')[2]) <==> r == UnknownTexts)
  {
    SplitCount(data, '_');
    var lang := CalcAnotherLanguage(data);
    if KnownLanguage(lang) then NewCalcPrompt(lang) else UnknownTexts
  }

  // ---------------------------------------------------------------- calculate_mutations

  /** The white circle's +100/+200/+300/+400% give exactly 2n, 3n, 4n, 5n, for every integer. */
  lemma WhiteTiers(n: int, k: nat)
    requires k < 4
    ensures TierValue(n, Mutations[0].percents[k]) == (k + 2) * n
  {
    var q := Mutations[0].percents[k];
    assert q == 10000 * (k + 1);
    if n >= 0 {
      assert n * (10000 + q) == ((k + 2) * n) * 10000;
    } else {
      assert (-n) * (10000 + q) == ((k + 2) * (-n)) * 10000;
    }
  }

  /** One result line: level name, value, its formatted form and the boost shown beside it. */
  datatype Tier = Tier(level: string, value: int, shown: string, percent: nat)

  /** The result of `calculate_mutations`, without its message wording. */
  datatype Calculation = Calculation(number: int, shownNumber: string, mutation: Mutation, name: string, tiers: seq<Tier>)

  function ExpectedTier(number: int, m: Mutation, lang: string, i: nat): Tier
    requires i < 4 <= |m.percents|
  {
    var v := TierValue(number, m.percents[i]);
    Tier(LevelName(lang, i), v, FormatNumber(v), m.percents[i])
  }

  /**
   * `calculate_mutations`: an unknown emoji falls back to the white circle,
   * and exactly four tier lines follow in level order; for `n >= 0` the values
   * are at least `n` and never decrease from one level to the next.
   */
  method CalculateMutations(number: int, emoji: string, lang: string) returns (c: Calculation)
    requires KnownLanguage(lang)
    ensures c.mutation == match Lookup(emoji) case Some(m) => m case None => Mutations[0]
    ensures IncreasingBoosts(c.mutation)
    ensures c.number == number && c.shownNumber == FormatNumber(number)
    ensures c.name == MutationName(c.mutation, lang)
    ensures |c.tiers| == 4
    ensures forall i :: 0 <= i < 4 ==> c.tiers[i] == ExpectedTier(number, c.mutation, lang, i)
    ensures number >= 0 ==> number <= c.tiers[0].value
    ensures number >= 0 ==> forall i :: 0 <= i < 3 ==> c.tiers[i].value <= c.tiers[i + 1].value
  {
    var m := match Lookup(emoji) case Some(found) => found case None => Mutations[0];
    MutationsIncreasing(m);
    if number >= 0 {
      TierValuesIncrease(number, m);
    }
    var tiers: seq<Tier> := [];
    var i := 0;
    while i < |m.percents|
      invariant 0 <= i <= 4 == |m.percents|
      invariant |tiers| == i
      invariant forall j :: 0 <= j < i ==> tiers[j] == ExpectedTier(number, m, lang, j)
    {
      var v := TierValue(number, m.percents[i]);
      tiers := tiers + [Tier(LevelName(lang, i), v, FormatNumber(v), m.percents[i])];
      i := i + 1;
    }
    c := Calculation(number, FormatNumber(number), m, MutationName(m, lang), tiers);
  }

  /** For `n >= 0` and increasing boosts, the tier values start at `n` or above and never decrease. */
  lemma TierValuesIncrease(n: nat, m: Mutation)
    requires IncreasingBoosts(m)
    ensures n <= TierValue(n, m.percents[0])
    ensures forall i :: 0 <= i < 3 ==> TierValue(n, m.percents[i]) <= TierValue(n, m.percents[i + 1])
  {
    TierValueMonotone(n, m.percents[0], m.percents[1]);
    TierValueMonotone(n, m.percents[1], m.percents[2]);
    TierValueMonotone(n, m.percents[2], m.percents[3]);
  }

  // ---------------------------------------------------------------- the handlers

  /** What `handle_mutation_selection` ends with. */
  datatype SelectionReply =
    | DataError                  // answers "data error"
    | NotFound                   // answers "mutation not found"
    | Raised                     // `int()` or `TEXTS[lang]` raised; nothing is answered
    | Result(calculation: Calculation)  // the result is computed and shown

  method HandleMutationSelection(data: string) returns (r: SelectionReply)
    ensures ParseSelection(data) == WrongFormat <==> r == DataError
    ensures ParseSelection(data) == MutationNotFound <==> r == NotFound
    ensures r.Result? <==> ParseSelection(data).Selected? && KnownLanguage(ParseSelection(data).lang)
    ensures r.Result? ==>
              r.calculation.mutation == ParseSelection(data).mutation &&
              r.calculation.number == ParseSelection(data).number &&
              r.calculation.shownNumber == FormatNumber(ParseSelection(data).number) &&
              r.calculation.name == MutationName(ParseSelection(data).mutation, ParseSelection(data).lang) &&
              |r.calculation.tiers| == 4 && IncreasingBoosts(r.calculation.mutation) &&
              forall i :: 0 <= i < 4 ==>
                r.calculation.tiers[i] ==
                  ExpectedTier(ParseSelection(data).number, r.calculation.mutation, ParseSelection(data).lang, i)
  {
    var sel := ParseSelection(data);
    match sel {
      case WrongFormat => r := DataError;
      case NumberNotInteger => r := Raised;
      case MutationNotFound => r := NotFound;
      case Selected(m, n, lang) =>
        if KnownLanguage(lang) {
          LookupEntryOf(m);
          var c := CalculateMutations(n, m.emoji, lang);
          r := Result(c);
        } else {
          r := Raised;
        }
    }
  }

  /** A table entry is found under its own emoji. */
  lemma LookupEntryOf(m: Mutation)
    requires m in Mutations
    ensures Lookup(m.emoji) == Some(m)
  {
    var k :| 0 <= k < |Mutations| && Mutations[k] == m;
    LookupEntry(k);
  }

  /** What `handle_exclamation_command` sends. */
  datatype ExclamationReply =
    | Ignored                                                  // the text is not `!<digits>`
    | Prompt(number: nat, lang: string, keyboard: seq<seq<Button>>)
    | Fallback(calculation: Calculation)                       // the prompt could not be sent
    | Silent                                                   // neither could the fallback: nothing is sent

  /**
   * `handle_exclamation_command`: the language is the sender's in a private
   * chat and always `ru` elsewhere. When sending the prompt fails
   * (`promptSent` is false), the white-circle table in that language is sent
   * instead; when that fails too (`fallbackSent` is false), the error is
   * logged and nothing is sent.
   */
  method HandleExclamation(text: string, inPrivate: bool, sender: Option<StoredUser>, promptSent: bool, fallbackSent: bool)
    returns (r: ExclamationReply)
    ensures ParseExclamation(text).None? <==> r == Ignored
    ensures r.Prompt? <==> ParseExclamation(text).Some? && promptSent
    ensures r.Fallback? <==> ParseExclamation(text).Some? && !promptSent && fallbackSent
    ensures r.Prompt? ==>
              r.number == ParseExclamation(text).value &&
              r.lang == (if inPrivate then UserLanguage(sender) else "ru") &&
              |r.keyboard| == (if inPrivate then 6 else 5)
    ensures r.Fallback? ==>
              var lang := if inPrivate then UserLanguage(sender) else "ru";
              r.calculation.number == ParseExclamation(text).value &&
              r.calculation.shownNumber == FormatNumber(ParseExclamation(text).value) &&
              r.calculation.mutation == Mutations[0] &&
              r.calculation.name == MutationName(Mutations[0], lang) &&
              |r.calculation.tiers| == 4 && IncreasingBoosts(r.calculation.mutation) &&
              forall i :: 0 <= i < 4 ==>
                r.calculation.tiers[i] == ExpectedTier(ParseExclamation(text).value, r.calculation.mutation, lang, i)
  {
    match ParseExclamation(text) {
      case None => r := Ignored;
      case Some(number) =>
        var lang := if inPrivate then UserLanguage(sender) else "ru";
        var keyboard := BuildKeyboard(number, lang, inPrivate);
        if promptSent {
          r := Prompt(number, lang, keyboard);
        } else if fallbackSent {
          var c := CalculateMutations(number, White, lang);
          r := Fallback(c);
        } else {
          r := Silent;
        }
    }
  }
}
