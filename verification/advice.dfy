/**
 * The fixed advice lines of the rule-based guide (services/geminiService.ts) and the keyword
 * lists its rules look for. Every advice line is a bullet: trimmed and starting with "•", so it
 * is never confused with a bucket's base text. The long texts are written as concatenations of
 * shorter literals only for the verifier's sake; the strings are the program's.
 */
module Advice {
  import opened Text

  // Trait advice for the play section (sleep, gross and fine motor).
  const PlaySunlight :=
    "• " + "낮 " + "시간에 " + "햇빛(산책 " + "15~30분)과 " + "신체 " + "놀이로 " + "에너지를 " + "쓰면 " + "밤잠 " + "전환이 " + "쉬워집니다."
  const PlayGrossShortAndOften :=
    "• " + "대근육은 " + "‘짧게 " + "자주’가 " + "좋아요: " + "하루 " + "3회 " + "× " + "5분(계단 " + "오르내리기 " + "보조/공 " + "굴리기/균형 " + "잡기)처럼 " + "쪼개보세요."
  const PlayGrossEasierSteps :=
    "• " + "성공 " + "경험을 " + "위해 " + "난이도를 " + "한 " + "단계 " + "낮추고(손잡이/벽 " + "짚기), " + "점진적으로 " + "보조를 " + "줄입니다."
  const PlayFineFourKinds :=
    "• " + "소근육은 " + "집기/끼우기/찢기/붙이기 " + "4종이 " + "기본입니다. " + "(콩 " + "집기, " + "스티커 " + "붙이기, " + "종이 " + "찢기, " + "끈 " + "끼우기)"

  // Trait advice for the education section (sleep, language, fine motor).
  const EduWindDown :=
    "• " + "취침 " + "전 " + "20~30분은 " + "조용한 " + "루틴(조명 " + "낮추기, " + "책 " + "1권, " + "동일한 " + "자장가)으로 " + "‘잠 " + "신호’를 " + "반복해주세요."
  const EduNightWake :=
    "• " + "밤중 " + "각성은 " + "‘완전 " + "깨지 " + "않게’ " + "짧고 " + "동일한 " + "방식(토닥임/속삭임)으로 " + "대응하고, " + "자극(불빛/대화)은 " + "최소화하세요."
  const EduTalkAndWait :=
    "• " + "‘말 " + "걸기 " + "+ " + "기다리기(3초)’를 " + "반복하세요. " + "아이가 " + "소리/제스처로라도 " + "반응하면 " + "바로 " + "확장해 " + "말해줍니다. " + "(예: " + "“공!” " + "→ " + "“빨간 " + "공 " + "굴리자”)"
  const EduWhereQuestions :=
    "• " + "질문은 " + "“이거 " + "뭐야?”보다 " + "“어디 " + "있지?”처럼 " + "찾기 " + "질문이 " + "부담이 " + "덜해요."
  const EduLanguageScreening :=
    "• " + "또래 " + "대비 " + "걱정이 " + "지속되면 " + "소아과/발달센터에 " + "선별검사(언어) " + "상담을 " + "받아보는 " + "것도 " + "도움이 " + "됩니다."
  const EduFreeDrawing :=
    "• " + "‘따라 " + "그리기’보다 " + "‘자유 " + "그리기 " + "+ " + "이름 " + "붙이기’가 " + "부담이 " + "적고 " + "지속하기 " + "좋아요."

  // Trait advice for the nutrition section (sleep, picky eating, snacks, infancy).
  const NutLateSugar :=
    "• " + "늦은 " + "시간 " + "당류 " + "간식/주스는 " + "각성을 " + "늘릴 " + "수 " + "있어 " + "저녁 " + "이후는 " + "물 " + "위주로 " + "정리해보세요."
  const NutOneBiteTwoChoices :=
    "• " + "편식은 " + "‘한 " + "입 " + "규칙 " + "+ " + "선택지 " + "2개’가 " + "효과적입니다. " + "(예: " + "브로콜리 " + "1입 " + "vs " + "당근 " + "1입, " + "둘 " + "중 " + "선택)"
  const NutReexposure :=
    "• " + "같은 " + "재료도 " + "조리법/모양을 " + "바꿔 " + "재노출(10~15회)하면 " + "수용도가 " + "올라갑니다."
  const NutSafeFoodFirst :=
    "• " + "편식이 " + "심하면 " + "‘주식은 " + "안전식 " + "+ " + "신식은 " + "소량’ " + "원칙으로 " + "스트레스를 " + "줄이세요. " + "(접시 " + "한 " + "구역만 " + "신식)"
  const NutSimpleMealRules :=
    "• " + "식사 " + "규칙 " + "단순화(식사시간 " + "20~30분, " + "종료 " + "후 " + "간식 " + "X)로 " + "패턴이 " + "안정됩니다."
  const NutPediatricConsult :=
    "• " + "체중/성장곡선이 " + "흔들리거나 " + "식사 " + "거부가 " + "지속되면 " + "소아과 " + "상담으로 " + "영양/철분 " + "체크를 " + "권장합니다."
  const NutFixedSnackTime :=
    "• " + "간식은 " + "‘시간과 " + "종류’를 " + "고정하세요. " + "(예: " + "오후 " + "3시, " + "과일/요거트 " + "중 " + "1개)"
  const NutWeeklySnackCap :=
    "• " + "과자/주스는 " + "주 " + "1~2회로 " + "한도를 " + "정하고, " + "배고픔 " + "신호는 " + "물/과일/우유로 " + "먼저 " + "조절해보세요."
  const NutInfancy :=
    "• " + "영아기에는 " + "수유/수면 " + "패턴을 " + "억지로 " + "맞추기보다 " + "하루 " + "흐름을 " + "기록하며 " + "안정감을 " + "만들어주세요."

  // Record-derived nutrition advice (meals, snacks, energy split).
  const NutLowIntake :=
    "• " + "최근 " + "식사량(완식)이 " + "낮은 " + "편이라면 " + "‘양’보다 " + "‘규칙’에 " + "집중해보세요: " + "식사시간 " + "20~30분, " + "종료 " + "후 " + "간식 " + "X."
  const NutSkippedMeals :=
    "• " + "끼니를 " + "자주 " + "거르면 " + "다음 " + "끼니 " + "폭식/간식 " + "과다로 " + "이어질 " + "수 " + "있어, " + "‘작게라도 " + "규칙적으로’가 " + "좋아요."
  const NutManySnacks :=
    "• " + "최근 " + "간식 " + "총량이 " + "많은 " + "편입니다. " + "‘정해진 " + "시간 " + "1회’로 " + "먼저 " + "줄이고, " + "종류는 " + "과일/요거트 " + "위주로 " + "바꿔보세요."
  const NutAfterDinnerSnack :=
    "• " + "‘저녁 " + "후 " + "간식’은 " + "수면을 " + "방해할 " + "수 " + "있어 " + "물/우유 " + "정도로 " + "마무리하는 " + "것을 " + "추천합니다."
  const NutSugarySnack :=
    "• " + "당류 " + "간식(과자/주스 " + "등)이 " + "포함되어 " + "있다면 " + "주 " + "1~2회로 " + "한도를 " + "정해보세요."
  const NutLowProtein :=
    "• " + "단백질 " + "비중이 " + "낮아 " + "보입니다. " + "매 " + "끼니 " + "‘단백질 " + "1가지’(달걀/두부/생선/살코기/그릭요거트)를 " + "추가해보세요."
  const NutLowFat :=
    "• " + "지방 " + "비중이 " + "너무 " + "낮으면 " + "포만감이 " + "떨어질 " + "수 " + "있어요. " + "견과류(알레르기 " + "주의), " + "아보카도, " + "올리브유 " + "등 " + "‘좋은 " + "지방’을 " + "소량 " + "추가해보세요."
  const NutHighCarb :=
    "• " + "탄수화물 " + "비중이 " + "높다면 " + "단백질/채소를 " + "먼저 " + "먹고, " + "탄수화물은 " + "뒤로 " + "미루는 " + "방식도 " + "도움이 " + "됩니다."

  // Record-derived discipline advice (count and keywords).
  const DisNoScolding :=
    "• " + "오늘은 " + "혼냄 " + "없이 " + "상황을 " + "정리하셨어요. " + "좋은 " + "기록 " + "습관입니다!"
  const DisShortAndConsistent :=
    "• " + "훈육은 " + "‘짧고 " + "일관되게’가 " + "핵심입니다: " + "(규칙 " + "1문장) " + "→ " + "(즉시 " + "결과) " + "→ " + "(대안 " + "행동 " + "제시)."
  const DisBriefExplanation :=
    "• " + "아이가 " + "진정되면 " + "‘왜 " + "안 " + "되는지’ " + "설명은 " + "길게 " + "하지 " + "말고 " + "1~2문장으로 " + "끝내세요."
  const DisCooldown :=
    "• " + "훈육 " + "횟수가 " + "많은 " + "날은 " + "부모/아이 " + "모두 " + "에너지가 " + "고갈된 " + "상태일 " + "수 " + "있어요. " + "안전만 " + "확보하고 " + "‘쿨다운 " + "5분’ " + "후 " + "다시 " + "시도해보세요."
  const DisFewerRules :=
    "• " + "규칙을 " + "1~2개로 " + "줄여(예: " + "던지기 " + "금지, " + "때리기 " + "금지) " + "성공 " + "경험을 " + "먼저 " + "만들면 " + "횟수가 " + "줄어듭니다."
  const DisThrowing :=
    "• " + "‘던지면 " + "치운다’ " + "규칙을 " + "고정하고, " + "던질 " + "수 " + "있는 " + "대체물(말랑 " + "공/쿠션)을 " + "따로 " + "제공해보세요."
  const DisAggressionStop :=
    "• " + "공격 " + "행동은 " + "즉시 " + "제지(안전) " + "→ " + "짧게 " + "“몸은 " + "아프게 " + "하면 " + "안 " + "돼” " + "→ " + "대안(손잡기/말로하기)을 " + "반복해주세요."
  const DisAggressionTriggers :=
    "• " + "반복되면 " + "피곤/배고픔/경쟁 " + "상황이 " + "트리거인 " + "경우가 " + "많아, " + "‘발생 " + "직전 " + "신호’를 " + "기록해보세요."
  const DisTantrum :=
    "• " + "감정 " + "폭발 " + "때는 " + "설득보다 " + "공감(“속상했구나”)→선택지 " + "2개(“A할래, " + "B할래?”)가 " + "효과적입니다."
  const DisRefusal :=
    "• " + "‘선택권’을 " + "작게 " + "주면 " + "거부가 " + "줄어듭니다. " + "(예: " + "빨간 " + "컵 " + "vs " + "파란 " + "컵, " + "먼저 " + "양치 " + "vs " + "먼저 " + "책)"
  const DisSafety :=
    "• " + "안전 " + "관련 " + "행동은 " + "‘즉시 " + "차단 " + "+ " + "대안 " + "제시’가 " + "우선입니다. " + "(설명은 " + "짧게, " + "반복은 " + "많이)"

  /** Words in the discipline note that trigger the throwing, aggression, tantrum, refusal and safety advice. */
  const ThrowKeywords: seq<string> := ["던", "집어", "부수"]
  const AggressionKeywords: seq<string> := ["때리", "밀", "물"]
  const TantrumKeywords: seq<string> := ["떼쓰", "울", "소리"]
  const RefusalKeywords: seq<string> := ["거부", "안해", "싫어"]
  const DangerKeywords: seq<string> := ["머리", "계단", "도로", "불", "칼", "콘센트"]

  /** A bullet line: non-empty, trimmed and starting with "•". */
  predicate IsBullet(s: string) {
    s != "" && IsTrimmed(s) && s[0] == '•'
  }

  /** Trait advice for the play section (sleep, gross and fine motor): every line is a bullet. */
  lemma PlayAdviceBullets()
    ensures IsBullet(PlaySunlight)
    ensures IsBullet(PlayGrossShortAndOften)
    ensures IsBullet(PlayGrossEasierSteps)
    ensures IsBullet(PlayFineFourKinds)
  {
  }

  /** Trait advice for the education section (sleep, language, fine motor): every line is a bullet. */
  lemma EduAdviceBullets()
    ensures IsBullet(EduWindDown)
    ensures IsBullet(EduNightWake)
    ensures IsBullet(EduTalkAndWait)
    ensures IsBullet(EduWhereQuestions)
    ensures IsBullet(EduLanguageScreening)
    ensures IsBullet(EduFreeDrawing)
  {
  }

  /** Trait advice for the nutrition section (sleep, picky eating, snacks, infancy): every line is a bullet. */
  lemma NutTraitAdviceBullets()
    ensures IsBullet(NutLateSugar)
    ensures IsBullet(NutOneBiteTwoChoices)
    ensures IsBullet(NutReexposure)
    ensures IsBullet(NutSafeFoodFirst)
    ensures IsBullet(NutSimpleMealRules)
    ensures IsBullet(NutPediatricConsult)
    ensures IsBullet(NutFixedSnackTime)
    ensures IsBullet(NutWeeklySnackCap)
    ensures IsBullet(NutInfancy)
  {
  }

  /** Record-derived nutrition advice (meals, snacks, energy split): every line is a bullet. */
  lemma NutRecordAdviceBullets()
    ensures IsBullet(NutLowIntake)
    ensures IsBullet(NutSkippedMeals)
    ensures IsBullet(NutManySnacks)
    ensures IsBullet(NutAfterDinnerSnack)
    ensures IsBullet(NutSugarySnack)
    ensures IsBullet(NutLowProtein)
    ensures IsBullet(NutLowFat)
    ensures IsBullet(NutHighCarb)
  {
  }

  /** Record-derived discipline advice (count and keywords): every line is a bullet. */
  lemma DisAdviceBullets()
    ensures IsBullet(DisNoScolding)
    ensures IsBullet(DisShortAndConsistent)
    ensures IsBullet(DisBriefExplanation)
    ensures IsBullet(DisCooldown)
    ensures IsBullet(DisFewerRules)
    ensures IsBullet(DisThrowing)
    ensures IsBullet(DisAggressionStop)
    ensures IsBullet(DisAggressionTriggers)
    ensures IsBullet(DisTantrum)
    ensures IsBullet(DisRefusal)
    ensures IsBullet(DisSafety)
  {
  }

  /**
   * The play lines are pairwise distinct, and so are the education, nutrition and discipline
   * lines: within a section their lengths differ, and the lines of equal length differ in their
   * third or fourth character (the fourth character of a nutrition line is never '/', which
   * tells it apart from the energy-split summary).
   */
  lemma PlayAdviceLengths()
    ensures |PlaySunlight| == 51 && |PlayGrossShortAndOften| == 65
    ensures |PlayGrossEasierSteps| == 52 && |PlayFineFourKinds| == 61
  {
  }

  lemma EduAdviceLengths()
    ensures |EduWindDown| == 62 && |EduNightWake| == 65 && |EduTalkAndWait| == 83
    ensures |EduWhereQuestions| == 43 && |EduLanguageScreening| == 56 && |EduFreeDrawing| == 48
  {
  }

  lemma NutTraitAdviceLengths()
    ensures |NutLateSugar| == 50 && |NutOneBiteTwoChoices| == 62 && |NutReexposure| == 45
    ensures |NutSafeFoodFirst| == 59 && |NutSimpleMealRules| == 47 && |NutPediatricConsult| == 54
    ensures |NutFixedSnackTime| == 46 && |NutWeeklySnackCap| == 53 && |NutInfancy| == 52
    ensures NutLateSugar[3] == '은' && NutOneBiteTwoChoices[3] == '식' && NutReexposure[3] == '은'
    ensures NutSafeFoodFirst[3] == '식' && NutSimpleMealRules[3] == '사' && NutPediatricConsult[3] == '중'
    ensures NutFixedSnackTime[3] == '식' && NutWeeklySnackCap[3] == '자' && NutInfancy[3] == '아'
  {
  }

  lemma NutRecordAdviceLengths()
    ensures |NutLowIntake| == 65 && |NutSkippedMeals| == 57 && |NutManySnacks| == 63
    ensures |NutAfterDinnerSnack| == 50 && |NutSugarySnack| == 45 && |NutLowProtein| == 62
    ensures |NutLowFat| == 78 && |NutHighCarb| == 55
    ensures NutLowIntake[3] == '근' && NutSkippedMeals[3] == '니' && NutManySnacks[3] == '근'
    ensures NutAfterDinnerSnack[3] == '저' && NutSugarySnack[3] == '류' && NutLowProtein[3] == '백'
    ensures NutLowFat[3] == '방' && NutHighCarb[3] == '수'
  {
  }

  lemma DisAdviceLengths()
    ensures |DisNoScolding| == 36 && |DisShortAndConsistent| == 56 && |DisBriefExplanation| == 47
    ensures |DisCooldown| == 74 && |DisFewerRules| == 58 && |DisThrowing| == 54
    ensures |DisAggressionStop| == 63 && |DisAggressionTriggers| == 53 && |DisTantrum| == 56
    ensures |DisRefusal| == 58 && |DisSafety| == 52
    ensures DisShortAndConsistent[2] != DisTantrum[2] && DisFewerRules[2] != DisRefusal[2]
  {
  }
}
