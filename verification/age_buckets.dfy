/**
 * The age-based base guide (services/geminiService.ts): the age in months is clamped to
 * 0..84 and looked up in three tables, by month up to 12, by quarter up to 36 and by half
 * year up to 84.
 */
module AgeBuckets {
  import opened Wrappers
  import opened Types
  import opened Text

  /** One base template: the months `min..max` (both inclusive) and a line per section. */
  datatype Bucket = Bucket(min: int, max: int, play: string, education: string, nutrition: string)

  /** `clampMonths`: not-a-number becomes 0, anything else is floored and clamped to 0..84. */
  function ClampMonths(months: JsNumber): (r: nat)
    ensures r <= 84
    ensures months.NaN? ==> r == 0
    ensures months.Num? && months.value < 0.0 ==> r == 0
    ensures months.Num? && months.value >= 84.0 ==> r == 84
    ensures months.Num? && 0.0 <= months.value < 85.0 ==> r as real <= months.value < r as real + 1.0
  {
    match months
    case NaN => 0
    case Num(x) =>
      var f := x.Floor;
      if f < 0 then 0 else if f > 84 then 84 else f
  }

  /** The bucket covers month `m`. */
  predicate InBucket(b: Bucket, m: int) {
    b.min <= m <= b.max
  }

  /** Months 0..12, one bucket per month; the bucket for month `i` is at index `i`. */
  const ByMonth: seq<Bucket> := [
    Bucket(0, 0,
      "짧은 " + "터미타임과 " + "촉감 " + "놀이로 " + "목·몸통을 " + "부드럽게 " + "자극해주세요.",
      "흑백 " + "대비 " + "그림(초점책)과 " + "부드러운 " + "목소리로 " + "짧게 " + "말 " + "걸어주세요.",
      "모유/분유 " + "중심으로 " + "수유 " + "리듬을 " + "관찰하고 " + "트림·역류를 " + "확인하세요."),
    Bucket(1, 1,
      "양방향으로 " + "몸을 " + "살짝 " + "돌려보며 " + "목·코어 " + "자극을 " + "늘려보세요.",
      "짧은 " + "문장으로 " + "반복(“엄마야”, " + "“안녕”)해 " + "주고 " + "반응을 " + "기다려주세요.",
      "수유량은 " + "‘총량’보다 " + "‘기분/배변/성장’을 " + "함께 " + "관찰하세요."),
    Bucket(2, 2,
      "손을 " + "펴고 " + "쥐는 " + "놀이, " + "딸랑이 " + "따라보기로 " + "시각-손 " + "협응을 " + "돕습니다.",
      "소리(의성어) " + "중심으로 " + "자주 " + "말 " + "걸고, " + "표정 " + "놀이를 " + "해보세요.",
      "밤낮 " + "리듬을 " + "위해 " + "낮에는 " + "밝게, " + "밤에는 " + "조용히(자극 " + "최소) " + "유지해보세요."),
    Bucket(3, 3,
      "터미타임 " + "시간을 " + "조금씩 " + "늘리고, " + "손에 " + "닿는 " + "장난감을 " + "제공해보세요.",
      "이름 " + "부르기 " + "+ " + "반응 " + "기다리기(3초)를 " + "반복해보세요.",
      "수유 " + "후 " + "잠드는 " + "패턴을 " + "기록해 " + "‘우리집 " + "루틴’을 " + "잡아갑니다."),
    Bucket(4, 4,
      "잡기/입에 " + "넣기(치발기)와 " + "뒤집기 " + "연습으로 " + "코어·소근육을 " + "키워주세요.",
      "한 " + "장씩 " + "넘기는 " + "촉감책을 " + "보며 " + "‘이건 " + "○○’처럼 " + "단어를 " + "반복해주세요.",
      "이유식 " + "준비 " + "단계라면 " + "알레르기·삼킴을 " + "관찰하며 " + "소량부터 " + "시작을 " + "준비하세요."),
    Bucket(5, 5,
      "옆으로 " + "굴리기/뒤집기 " + "유도, " + "앉기 " + "보조로 " + "균형감각을 " + "시작해보세요.",
      "거울 " + "놀이, " + "이름-행동(“손 " + "흔들자”)을 " + "짧게 " + "연결해보세요.",
      "이유식 " + "시작 " + "시기라면 " + "‘철분’이 " + "중요한 " + "시기입니다(쌀미음+단백질 " + "점진)."),
    Bucket(6, 6,
      "스스로 " + "앉기 " + "연습, " + "컵/블록 " + "잡기 " + "놀이로 " + "손 " + "사용을 " + "늘려보세요.",
      "같은 " + "책을 " + "반복해도 " + "좋아요. " + "‘반복’이 " + "언어를 " + "키웁니다.",
      "이유식은 " + "‘양’보다 " + "‘경험’이 " + "우선입니다. " + "소량·다양·천천히."),
    Bucket(7, 7,
      "기어다니기 " + "유도(장난감 " + "조금 " + "멀리), " + "앉아서 " + "손 " + "놀이를 " + "섞어주세요.",
      "그림을 " + "가리키며 " + "‘공/엄마/아빠’처럼 " + "명사 " + "중심으로 " + "짧게 " + "말해보세요.",
      "이유식 " + "횟수를 " + "늘리며 " + "단백질(두부/계란/생선)을 " + "천천히 " + "확장하세요."),
    Bucket(8, 8,
      "서기 " + "보조/무릎 " + "걷기 " + "등 " + "이동을 " + "다양화하고, " + "손가락 " + "집기 " + "놀이를 " + "해보세요.",
      "“어디 " + "있지?” " + "같은 " + "찾기 " + "질문이 " + "부담이 " + "덜합니다.",
      "자극적인 " + "간식/주스는 " + "피하고, " + "물·과일·요거트로 " + "리듬을 " + "잡아주세요."),
    Bucket(9, 9,
      "기어다니기+잡고 " + "서기, " + "공 " + "굴리기 " + "놀이로 " + "균형·협응을 " + "돕습니다.",
      "동작+단어(“굴려!”, " + "“줘!”)를 " + "같이 " + "써보세요.",
      "철분 " + "식품(살코기/달걀노른자/콩류)을 " + "규칙적으로 " + "포함해보세요."),
    Bucket(10, 10,
      "잡고 " + "서기·옆걸음 " + "연습과 " + "공 " + "굴리기 " + "놀이로 " + "균형감각을 " + "키워주세요.",
      "반복되는 " + "문장 " + "구조의 " + "그림책을 " + "함께 " + "읽고, " + "의성어/의태어를 " + "많이 " + "써주세요.",
      "유아식 " + "전환 " + "준비: " + "씹기 " + "연습을 " + "위해 " + "질감을 " + "단계적으로 " + "올려주세요."),
    Bucket(11, 11,
      "손잡고 " + "걷기, " + "상자 " + "넣기/빼기 " + "놀이로 " + "대·소근육을 " + "같이 " + "자극해요.",
      "일상에서 " + "‘이름 " + "붙이기’를 " + "늘리고, " + "아이가 " + "소리내면 " + "바로 " + "확장해 " + "말해주세요.",
      "간은 " + "약하게, " + "다양한 " + "식재료를 " + "‘재노출’(10회+)로 " + "익숙하게 " + "해주세요."),
    Bucket(12, 12,
      "서서 " + "균형 " + "잡기, " + "공 " + "던지기 " + "흉내로 " + "전신 " + "협응을 " + "시작합니다.",
      "책+생활대화로 " + "단어를 " + "늘리고, " + "손짓/표정으로 " + "의사표현을 " + "도와주세요.",
      "유아식으로 " + "넘어가며 " + "‘과자/주스’는 " + "습관이 " + "되기 " + "전에 " + "규칙을 " + "만들어보세요.")
  ]

  /** Months 13..36 in steps of three. */
  const Buckets3m: seq<Bucket> := [
    Bucket(13, 15,
      "걷기 " + "연습과 " + "블록 " + "쌓기(2~4개)로 " + "대·소근육을 " + "같이 " + "키워주세요.",
      "하루 " + "10분 " + "책읽기 " + "루틴 " + "+ " + "아이가 " + "가리키는 " + "것을 " + "이름 " + "붙여주세요.",
      "세 " + "끼+간식 " + "리듬을 " + "잡고, " + "단백질(달걀·두부·생선)을 " + "꾸준히 " + "주세요."),
    Bucket(16, 18,
      "계단 " + "오르내리기(보호자 " + "동반), " + "공 " + "굴리기/던지기 " + "흉내를 " + "해보세요.",
      "“줘/더/안해” " + "같은 " + "기능어를 " + "생활 " + "속에서 " + "자주 " + "써주세요.",
      "편식 " + "시작기: " + "‘한 " + "입 " + "규칙’과 " + "선택지 " + "2개 " + "제시로 " + "부담 " + "없이 " + "확장해보세요."),
    Bucket(19, 21,
      "점프 " + "흉내, " + "끌기/밀기 " + "놀이로 " + "전신 " + "협응을 " + "늘려보세요.",
      "짧은 " + "이야기책을 " + "읽고 " + "‘다음엔 " + "뭐할까?’처럼 " + "간단 " + "질문을 " + "던져보세요.",
      "탄·단·지 " + "균형을 " + "의식하고, " + "당류 " + "간식은 " + "횟수와 " + "양을 " + "정해 " + "관리하세요."),
    Bucket(22, 24,
      "그림 " + "그리기(크레용)·퍼즐(2~6조각)로 " + "집중과 " + "소근육을 " + "키우세요.",
      "2단어 " + "문장(“빨간 " + "공”, " + "“엄마 " + "같이”)을 " + "자연스럽게 " + "모델링해 " + "주세요.",
      "식사시간은 " + "20~30분, " + "종료 " + "후 " + "간식 " + "X " + "등 " + "규칙을 " + "단순하게 " + "유지해보세요."),
    Bucket(25, 27,
      "역할놀이(요리/병원)와 " + "간단한 " + "규칙 " + "놀이로 " + "사회성·자기조절을 " + "시작해보세요.",
      "그림책+생활 " + "대화로 " + "문장을 " + "늘리고, " + "색/모양/수(1~3) " + "놀이를 " + "가볍게 " + "섞어주세요.",
      "채소는 " + "‘한 " + "입 " + "+ " + "재노출’, " + "단백질은 " + "매 " + "끼니 " + "작은 " + "단위로 " + "넣어주세요."),
    Bucket(28, 30,
      "균형 " + "놀이(한 " + "발 " + "서기 " + "흉내), " + "공 " + "차기/던지기 " + "게임을 " + "해보세요.",
      "‘왜?’ " + "질문이 " + "늘면 " + "공감→짧은 " + "설명으로 " + "이어가주세요.",
      "우유/유제품, " + "생선/콩류로 " + "칼슘·단백질을 " + "꾸준히 " + "보강하세요."),
    Bucket(31, 33,
      "가위(안전가위)·풀·스티커로 " + "소근육을, " + "야외 " + "달리기로 " + "대근육을 " + "키우세요.",
      "하루 " + "1권 " + "책읽기+자기 " + "말로 " + "따라하기(1문장)를 " + "놀이처럼 " + "해보세요.",
      "간식은 " + "시간 " + "고정(예: " + "3시) " + "+ " + "과일/요거트 " + "위주로 " + "구성해보세요."),
    Bucket(34, 36,
      "협동 " + "놀이(순서 " + "지키기), " + "만들기(레고/공작)로 " + "성취감을 " + "키우세요.",
      "감정 " + "단어(기쁘다/속상하다)를 " + "붙여 " + "말하는 " + "연습을 " + "해보세요.",
      "식사 " + "리듬이 " + "흔들리면 " + "‘식사→간식’ " + "순서와 " + "시간을 " + "다시 " + "고정해보세요.")
  ]

  /** Months 37..84 in steps of six. */
  const Buckets6m: seq<Bucket> := [
    Bucket(37, 42,
      "자전거(밸런스)·균형 " + "놀이로 " + "대근육을, " + "가위/풀로 " + "소근육을 " + "키우세요.",
      "규칙 " + "있는 " + "책읽기(하루 " + "1권)와 " + "낱말/숫자 " + "놀이로 " + "기초 " + "습관을 " + "잡아주세요.",
      "단백질+채소를 " + "매 " + "끼니 " + "한 " + "가지 " + "이상 " + "포함하고, " + "간식은 " + "정해진 " + "시간에만 " + "제공하세요."),
    Bucket(43, 48,
      "공놀이/달리기/점프로 " + "체력과 " + "협응을, " + "간단한 " + "보드게임으로 " + "규칙 " + "지키기를 " + "연습해요.",
      "‘순서대로 " + "말하기’(처음-중간-끝)를 " + "놀이로 " + "해보세요.",
      "당류 " + "간식/주스는 " + "주 " + "1~2회로 " + "한도를 " + "정해 " + "일관되게 " + "관리해보세요."),
    Bucket(49, 54,
      "협동 " + "게임과 " + "야외 " + "활동(달리기·공놀이)로 " + "체력과 " + "팀워크를 " + "키우세요.",
      "관심 " + "주제(공룡/우주 " + "등) " + "독서와 " + "간단한 " + "기록(그림·한 " + "줄)을 " + "연결해보세요.",
      "활동량이 " + "늘면 " + "수분·과일·단백질을 " + "충분히, " + "늦은 " + "시간 " + "당류는 " + "줄여보세요."),
    Bucket(55, 60,
      "규칙 " + "있는 " + "스포츠 " + "기초와 " + "만들기(레고/공작)로 " + "성취감을 " + "키우세요.",
      "읽기 " + "이해를 " + "위해 " + "‘요약 " + "1문장’ " + "놀이를 " + "하고, " + "수/도형 " + "감각을 " + "생활 " + "속에서 " + "다뤄주세요.",
      "성장기 " + "균형식(탄·단·지) " + "유지 " + "+ " + "철분/칼슘 " + "식품을 " + "신경 " + "써주세요."),
    Bucket(61, 66,
      "팀워크 " + "놀이와 " + "미세 " + "작업(글씨/공작)으로 " + "사회성·소근육을 " + "강화하세요.",
      "기초 " + "글쓰기(일기/감상 " + "2~3문장)로 " + "표현력을 " + "확장해보세요.",
      "규칙적인 " + "식사/수면 " + "리듬이 " + "우선입니다. " + "야식/당류는 " + "습관화되지 " + "않게 " + "관리하세요."),
    Bucket(67, 72,
      "규칙과 " + "팀워크가 " + "필요한 " + "놀이로 " + "사회성을, " + "집중 " + "필요한 " + "공작으로 " + "소근육을 " + "강화하세요.",
      "관심 " + "분야 " + "독서와 " + "발표(말로 " + "설명하기 " + "1분)를 " + "연결해보세요.",
      "성장속도 " + "개인차가 " + "큰 " + "시기이니 " + "과식·당류를 " + "줄이고 " + "균형식을 " + "유지하세요."),
    Bucket(73, 78,
      "운동+휴식 " + "균형을 " + "잡고, " + "손글씨/공작 " + "등 " + "미세작업을 " + "꾸준히 " + "해주세요.",
      "‘내 " + "생각-근거-결론’ " + "3단 " + "말하기를 " + "가볍게 " + "연습해보세요.",
      "편식/간식은 " + "규칙이 " + "핵심입니다. " + "‘정해진 " + "시간+정해진 " + "양’으로 " + "관리해보세요."),
    Bucket(79, 84,
      "팀 " + "놀이와 " + "규칙 " + "게임으로 " + "사회성을, " + "공작/그림으로 " + "집중력을 " + "강화하세요.",
      "독서+기초 " + "글쓰기(감상 " + "3문장)로 " + "표현력을 " + "확장해보세요.",
      "규칙적인 " + "식사/수면 " + "리듬을 " + "우선하고, " + "당류는 " + "습관이 " + "되기 " + "전에 " + "제한하세요.")
  ]

  /** The three tables in order. */
  const AllBuckets: seq<Bucket> := ByMonth + Buckets3m + Buckets6m

  /**
   * The buckets of `tbl` lie side by side from `lo` to `hi`: the first starts at `lo`, each
   * next one starts right after the previous one ends, and the last ends at `hi`.
   */
  predicate Tiles(tbl: seq<Bucket>, lo: int, hi: int) {
    && |tbl| > 0 && tbl[0].min == lo && tbl[|tbl| - 1].max == hi
    && (forall i | 0 <= i < |tbl| :: tbl[i].min <= tbl[i].max)
    && (forall i | 0 <= i < |tbl| - 1 :: tbl[i + 1].min == tbl[i].max + 1)
  }

  /** In a tiling, later buckets start after earlier ones end, and all stay inside `lo..hi`. */
  lemma {:induction false} TilesOrdered(tbl: seq<Bucket>, lo: int, hi: int, i: int, j: int)
    requires Tiles(tbl, lo, hi)
    requires 0 <= i < j < |tbl|
    ensures tbl[i].max < tbl[j].min
    ensures lo <= tbl[i].min && tbl[j].max <= hi
    decreases j - i
  {
    if j == i + 1 {
      TilesBounds(tbl, lo, hi, i);
      TilesBounds(tbl, lo, hi, j);
    } else {
      TilesOrdered(tbl, lo, hi, i, j - 1);
      TilesOrdered(tbl, lo, hi, j - 1, j);
    }
  }

  lemma {:induction false} TilesBounds(tbl: seq<Bucket>, lo: int, hi: int, i: int)
    requires Tiles(tbl, lo, hi)
    requires 0 <= i < |tbl|
    ensures lo <= tbl[i].min <= tbl[i].max <= hi
    decreases |tbl| - i
  {
    TilesFromStart(tbl, lo, hi, i);
    TilesToEnd(tbl, lo, hi, i);
  }

  lemma {:induction false} TilesFromStart(tbl: seq<Bucket>, lo: int, hi: int, i: int)
    requires Tiles(tbl, lo, hi)
    requires 0 <= i < |tbl|
    ensures lo <= tbl[i].min
  {
    if i > 0 {
      TilesFromStart(tbl, lo, hi, i - 1);
    }
  }

  lemma {:induction false} TilesToEnd(tbl: seq<Bucket>, lo: int, hi: int, i: int)
    requires Tiles(tbl, lo, hi)
    requires 0 <= i < |tbl|
    ensures tbl[i].max <= hi
    decreases |tbl| - i
  {
    if i < |tbl| - 1 {
      TilesToEnd(tbl, lo, hi, i + 1);
    }
  }

  /**
   * A tiling partitions `lo..hi`: every month in it is covered by exactly one bucket, and no
   * bucket covers a month outside it.
   */
  lemma {:induction false} TilesPartition(tbl: seq<Bucket>, lo: int, hi: int, m: int)
    requires Tiles(tbl, lo, hi)
    ensures lo <= m <= hi <==> exists i | 0 <= i < |tbl| :: InBucket(tbl[i], m)
    ensures forall i, j | 0 <= i < |tbl| && 0 <= j < |tbl| && InBucket(tbl[i], m) && InBucket(tbl[j], m) :: i == j
  {
    forall i, j | 0 <= i < |tbl| && 0 <= j < |tbl| && InBucket(tbl[i], m) && InBucket(tbl[j], m)
      ensures i == j
    {
      if i < j { TilesOrdered(tbl, lo, hi, i, j); }
      if j < i { TilesOrdered(tbl, lo, hi, j, i); }
    }
    if lo <= m <= hi {
      var i := TileIndex(tbl, lo, hi, m);
    }
    forall i | 0 <= i < |tbl| && InBucket(tbl[i], m) ensures lo <= m <= hi {
      TilesBounds(tbl, lo, hi, i);
    }
  }

  /** The index of the bucket that covers `m`, found by walking the tiling from the start. */
  lemma {:induction false} TileIndex(tbl: seq<Bucket>, lo: int, hi: int, m: int) returns (i: nat)
    requires Tiles(tbl, lo, hi)
    requires lo <= m <= hi
    ensures i < |tbl| && InBucket(tbl[i], m)
  {
    i := 0;
    while tbl[i].max < m
      invariant 0 <= i < |tbl|
      invariant tbl[i].min <= m
      decreases |tbl| - i
    {
      if i == |tbl| - 1 {
        assert false;
      }
      i := i + 1;
    }
  }

  /** `Array.prototype.find`: the first bucket of `tbl` that covers `m`, if any. */
  function FindBucket(tbl: seq<Bucket>, m: int): (r: Option<Bucket>)
    ensures r.Some? ==> r.value in tbl && InBucket(r.value, m)
    ensures r.None? <==> forall i | 0 <= i < |tbl| :: !InBucket(tbl[i], m)
  {
    if tbl == [] then None
    else if InBucket(tbl[0], m) then Some(tbl[0])
    else
      var r := FindBucket(tbl[1..], m);
      assert forall i | 1 <= i < |tbl| :: tbl[i] == tbl[1..][i - 1];
      r
  }

  /** Months 0..12 are tiled one month at a time; the bucket of month `i` sits at index `i`. */
  lemma ByMonthTiles()
    ensures Tiles(ByMonth, 0, 12)
    ensures forall i | 0 <= i < |ByMonth| :: ByMonth[i].min == ByMonth[i].max == i
  {
  }

  /** Months 13..36 are tiled three months at a time. */
  lemma Buckets3mTile()
    ensures Tiles(Buckets3m, 13, 36)
    ensures forall i | 0 <= i < |Buckets3m| :: Buckets3m[i].max - Buckets3m[i].min == 2
  {
  }

  /** Months 37..84 are tiled six months at a time. */
  lemma Buckets6mTile()
    ensures Tiles(Buckets6m, 37, 84)
    ensures forall i | 0 <= i < |Buckets6m| :: Buckets6m[i].max - Buckets6m[i].min == 5
  {
  }

  /**
   * A base text is a sentence: it starts with a digit, a Hangul syllable or an opening quote
   * and ends with a full stop.
   */
  predicate IsBaseText(s: string) {
    && s != ""
    && ('0' <= s[0] <= '9' || '가' <= s[0] <= '힣' || s[0] == '‘' || s[0] == '“')
    && s[|s| - 1] == '.'
  }

  /** So a base text is its own trim, and it never equals a bulleted advice line. */
  lemma BaseTextIsTrimmed(s: string)
    requires IsBaseText(s)
    ensures IsTrimmed(s) && s[0] != '•'
  {
  }

  predicate BaseTexts(b: Bucket) {
    IsBaseText(b.play) && IsBaseText(b.education) && IsBaseText(b.nutrition)
  }

  lemma ByMonthTexts()
    ensures forall i | 0 <= i < |ByMonth| :: BaseTexts(ByMonth[i])
  {
    ByMonthTextsUpTo6();
    ByMonthTextsFrom7();
  }

  lemma ByMonthTextsUpTo6()
    ensures forall i | 0 <= i < 7 :: BaseTexts(ByMonth[i])
  {
  }

  lemma ByMonthTextsFrom7()
    ensures forall i | 7 <= i < |ByMonth| :: BaseTexts(ByMonth[i])
  {
  }

  lemma Buckets3mTexts()
    ensures forall i | 0 <= i < |Buckets3m| :: BaseTexts(Buckets3m[i])
  {
    Buckets3mTextsUpTo3();
    Buckets3mTextsFrom4();
  }

  lemma Buckets3mTextsUpTo3()
    ensures forall i | 0 <= i < 4 :: BaseTexts(Buckets3m[i])
  {
  }

  lemma Buckets3mTextsFrom4()
    ensures forall i | 4 <= i < |Buckets3m| :: BaseTexts(Buckets3m[i])
  {
  }

  lemma Buckets6mTexts()
    ensures forall i | 0 <= i < |Buckets6m| :: BaseTexts(Buckets6m[i])
  {
    Buckets6mTextsUpTo3();
    Buckets6mTextsFrom4();
  }

  lemma Buckets6mTextsUpTo3()
    ensures forall i | 0 <= i < 4 :: BaseTexts(Buckets6m[i])
  {
  }

  lemma Buckets6mTextsFrom4()
    ensures forall i | 4 <= i < |Buckets6m| :: BaseTexts(Buckets6m[i])
  {
  }

  /** Every bucket of the three tables carries three base texts. */
  lemma BucketTexts(b: Bucket)
    requires b in AllBuckets
    ensures BaseTexts(b)
  {
    ByMonthTexts();
    Buckets3mTexts();
    Buckets6mTexts();
    if b in ByMonth {
      var i :| 0 <= i < |ByMonth| && ByMonth[i] == b;
    } else if b in Buckets3m {
      var i :| 0 <= i < |Buckets3m| && Buckets3m[i] == b;
    } else {
      var i :| 0 <= i < |Buckets6m| && Buckets6m[i] == b;
    }
  }

  lemma TablesTile()
    ensures Tiles(ByMonth, 0, 12) && Tiles(Buckets3m, 13, 36) && Tiles(Buckets6m, 37, 84)
    ensures forall i | 0 <= i < |ByMonth| :: ByMonth[i].min == i
  {
    ByMonthTiles();
    Buckets3mTile();
    Buckets6mTile();
  }

  /** Together the three tables tile 0..84, so every month 0..84 has exactly one bucket. */
  lemma AllBucketsTile()
    ensures Tiles(AllBuckets, 0, 84)
  {
    TablesTile();
    var a := ByMonth + Buckets3m;
    assert forall i | 0 <= i < |a| - 1 :: a[i + 1].min == a[i].max + 1 by {
      forall i | 0 <= i < |a| - 1 ensures a[i + 1].min == a[i].max + 1 {
        if i < |ByMonth| - 1 {
        } else if i == |ByMonth| - 1 {
        } else {
          assert a[i] == Buckets3m[i - |ByMonth|];
          assert a[i + 1] == Buckets3m[i + 1 - |ByMonth|];
        }
      }
    }
    var all := a + Buckets6m;
    assert all == AllBuckets;
    forall i | 0 <= i < |all| - 1 ensures all[i + 1].min == all[i].max + 1 {
      if i < |a| - 1 {
      } else if i == |a| - 1 {
      } else {
        assert all[i] == Buckets6m[i - |a|];
        assert all[i + 1] == Buckets6m[i + 1 - |a|];
      }
    }
  }

  /**
   * `getBaseBucket`: the bucket for the clamped age. Month 0..12 reads the by-month table,
   * 13..36 the first quarterly bucket that covers it, 37..84 the first half-yearly one (with
   * the last bucket as fallback). The result always covers the clamped age.
   */
  function BaseBucket(months: JsNumber): (b: Bucket)
    ensures InBucket(b, ClampMonths(months))
    ensures b in AllBuckets
  {
    var m := ClampMonths(months);
    TablesTile();
    if m <= 12 then
      // the by-month record has every key 0..12, so its `?? byMonth[12]` fallback never applies
      var b := ByMonth[m];
      assert b == AllBuckets[m];
      b
    else
      match FindBucket(Buckets3m, m)
      case Some(b) =>
        assert b in AllBuckets;
        b
      case None =>
        var b := FindBucket(Buckets6m, m).GetOr(Buckets6m[|Buckets6m| - 1]);
        TilesPartition(Buckets3m, 13, 36, m);
        TilesPartition(Buckets6m, 37, 84, m);
        assert b in AllBuckets;
        b
  }

  /** `getStaticGuide`: the base bucket's three lines, and no discipline section. */
  function StaticGuide(months: JsNumber): (g: GuideData)
    ensures g.discipline.None?
    ensures exists i | 0 <= i < |AllBuckets| :: InBucket(AllBuckets[i], ClampMonths(months))
              && g == GuideData(AllBuckets[i].play, AllBuckets[i].education, AllBuckets[i].nutrition, None)
  {
    var b := BaseBucket(months);
    GuideData(b.play, b.education, b.nutrition, None)
  }

  /**
   * The base bucket depends only on the clamped age, and it is THE bucket of that age: any
   * bucket in the tables that covers the clamped age is this one.
   */
  lemma BaseBucketUnique(months: JsNumber, i: int)
    requires 0 <= i < |AllBuckets| && InBucket(AllBuckets[i], ClampMonths(months))
    ensures BaseBucket(months) == AllBuckets[i]
  {
    AllBucketsTile();
    var b := BaseBucket(months);
    var j :| 0 <= j < |AllBuckets| && AllBuckets[j] == b;
    TilesPartition(AllBuckets, 0, 84, ClampMonths(months));
  }

  /** Ages outside 0..84 get the bucket of the nearest end: -5 behaves as 0 and 999 as 84. */
  lemma ClampedAgesShareBuckets(months: JsNumber)
    ensures BaseBucket(months) == BaseBucket(Num(ClampMonths(months) as real))
    ensures BaseBucket(Num(-5.0)) == BaseBucket(Num(0.0))
    ensures BaseBucket(Num(999.0)) == BaseBucket(Num(84.0))
  {
    var c := ClampMonths(months);
    assert (c as real).Floor == c;
    assert ClampMonths(Num(c as real)) == c;
    assert ClampMonths(Num(-5.0)) == 0 == ClampMonths(Num(0.0));
    assert ClampMonths(Num(999.0)) == 84 == ClampMonths(Num(84.0));
  }
}
