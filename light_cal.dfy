/** The command-line energy calculator: it reads appliance counts, asks a
    yes/no question before each of AC, fridge and washing machine, and adds up
    the guarded `count * rate` terms one `+=` at a time. Console and MongoDB
    I/O become the method's parameters and results. */
module LightCal {
  import opened Numerics
  import LightCalUi

  /** Python's `str.lower()` on ASCII letters; other characters are kept. */
  function LowerChar(c: char): char {
    if 'A' <= c <= 'Z' then (c as int + 32) as char else c
  }

  function Lower(s: string): (r: string)
    ensures |r| == |s|
    ensures forall i :: 0 <= i < |s| ==> r[i] == LowerChar(s[i])
  {
    if |s| == 0 then [] else [LowerChar(s[0])] + Lower(s[1..])
  }

  /** `que.lower() == "yes"`: the only answer that opens the count prompt. */
  predicate AnswersYes(answer: string) {
    Lower(answer) == "yes"
  }

  /** The answer is accepted in any letter case, and only as the full word. */
  lemma AnswersYesExactly(answer: string)
    ensures AnswersYes(answer) <==>
            |answer| == 3 && (answer[0] == 'y' || answer[0] == 'Y')
            && (answer[1] == 'e' || answer[1] == 'E') && (answer[2] == 's' || answer[2] == 'S')
  {
    if |answer| == 3 && AnswersYes(answer) {
      assert Lower(answer)[0] == 'y' && Lower(answer)[1] == 'e' && Lower(answer)[2] == 's';
    }
    if |answer| == 3 && (answer[0] == 'y' || answer[0] == 'Y')
       && (answer[1] == 'e' || answer[1] == 'E') && (answer[2] == 's' || answer[2] == 'S') {
      assert Lower(answer) == "yes";
    }
  }

  /** "y", "Y" and "yes " are refusals: the count stays 0. */
  lemma ShortAnswersRefuse()
    ensures !AnswersYes("y") && !AnswersYes("Y") && !AnswersYes("yes ") && AnswersYes("YES")
  {
    AnswersYesExactly("y");
    AnswersYesExactly("Y");
    AnswersYesExactly("yes ");
    AnswersYesExactly("YES");
  }

  /** The whole script after its prompts: the typed counts and answers come
      in; the gated counts, `cal_energy` and the daily cost come out. Each
      count is added only if it is `>= 0`, so a negative count adds nothing;
      `cal_energy` itself is not rounded. */
  method RunCalculator(light: int, fans: int, tv: int,
                       acAnswer: string, acTyped: int,
                       fridgeAnswer: string, fridgeTyped: int,
                       wmAnswer: string, wmTyped: int)
    returns (ac: int, fridge: int, wm: int, calEnergy: real, totalValue: real)
    ensures ac == (if AnswersYes(acAnswer) then acTyped else 0)
    ensures fridge == (if AnswersYes(fridgeAnswer) then fridgeTyped else 0)
    ensures wm == (if AnswersYes(wmAnswer) then wmTyped else 0)
    ensures calEnergy == LightCalUi.EnergySum(LightCalUi.ApplianceDict(light, fans, tv,
                           AnswersYes(acAnswer), acTyped, AnswersYes(fridgeAnswer), fridgeTyped,
                           AnswersYes(wmAnswer), wmTyped))
    ensures calEnergy >= 0.0
    ensures 8.0 * calEnergy - 0.005 < totalValue <= 8.0 * calEnergy + 0.005
  {
    calEnergy := 0.0;
    ac, fridge, wm := 0, 0, 0;

    if Lower(acAnswer) == "yes" {
      ac := acTyped;
    }
    if Lower(fridgeAnswer) == "yes" {
      fridge := fridgeTyped;
    }
    if Lower(wmAnswer) == "yes" {
      wm := wmTyped;
    }

    if light >= 0 {
      calEnergy := calEnergy + light as real * 0.2;
    }
    if fans >= 0 {
      calEnergy := calEnergy + fans as real * 0.2;
    }
    if tv >= 0 {
      calEnergy := calEnergy + tv as real * 0.3;
    }
    if ac >= 0 {
      calEnergy := calEnergy + ac as real * 3.00;
    }
    if fridge >= 0 {
      calEnergy := calEnergy + fridge as real * 3.1;
    }
    if wm >= 0 {
      calEnergy := calEnergy + wm as real * 2.8;
    }

    assert LightCalUi.ApplianceDict(light, fans, tv, AnswersYes(acAnswer), acTyped,
                                    AnswersYes(fridgeAnswer), fridgeTyped, AnswersYes(wmAnswer), wmTyped)
        == LightCalUi.ApplianceDict(light, fans, tv, true, ac, true, fridge, true, wm);
    LightCalUi.ApplianceDictEnergy(light, fans, tv, ac, fridge, wm);

    var ratePerUnit := 8.0;
    totalValue := Round2(calEnergy * ratePerUnit);
  }
}
