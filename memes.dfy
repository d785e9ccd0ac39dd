/**
 * The catalog of cultural references ("memes") a story prompt may draw
 * on: a constant table in declaration order, a lookup by id, and the
 * text block that lists every meme for the language model.
 */
module Memes {
  import opened Builtins

  /** One reference: a unique id, the name shown in the prompt, the feeling it evokes and an example line. */
  datatype MemeConfig = MemeConfig(id: string, name: string, trigger: string, example: string)

  // Nostalgia for an 80s-90s childhood.

  const Childhood := MemeConfig("childhood", "Как в детстве",
    "ностальгия, беззаботность",
    "Мороженое у моря — как в детстве, только лучше")
  const Dacha := MemeConfig("dacha", "Дача у бабушки",
    "лето, свобода, фрукты с дерева",
    "Инжир прямо с дерева — как на даче у бабушки")
  const SeaReward := MemeConfig("sea_reward", "Море как награда",
    "особое событие, долгожданное",
    "Помните, как ждали лета целый год? Вот оно")
  const YardFreedom := MemeConfig("yard_freedom", "Двор и свобода",
    "гуляли до темноты, сами по себе",
    "Дети носятся по пляжу — как мы когда-то во дворе")
  const SovietCinema := MemeConfig("soviet_cinema", "Советское кино",
    "культовые фильмы, цитаты",
    "Шашлык такой, что Шурик бы одобрил")
  const PioneerCamp := MemeConfig("pioneer_camp", "Пионерлагерь",
    "лето, коллектив, костёр",
    "Вечер у костра — как в лагере, только вино можно")

  const NostalgiaMemes: seq<MemeConfig> := [Childhood, Dacha, SeaReward, YardFreedom, SovietCinema, PioneerCamp]

  // Authenticity.

  const RealThing := MemeConfig("real_thing", "Настоящее",
    "натуральное, не из пакета, фермерское",
    "Сыр настоящий — не тот, что в вакууме")
  const GrandmaFood := MemeConfig("grandma_food", "Бабушкина еда",
    "домашнее, с любовью, руками",
    "Хинкали лепят как бабушка — руками и с душой")
  const HomemadeWine := MemeConfig("homemade_wine", "Домашнее вино",
    "не магазинное, своё",
    "Вино домашнее — дядя Гиви делает сам")
  const Bazaar := MemeConfig("bazaar", "Рынок/базар",
    "колорит, торг, свежее, общение",
    "На базаре — это не покупки, это спектакль")
  const Authentic := MemeConfig("authentic", "Не для туристов",
    "как у местных, настоящее",
    "Место, куда ходят сами батумцы")
  const Simple := MemeConfig("simple", "По-простому",
    "без понтов, честно",
    "Пластиковые стулья, но шашлык — лучший в городе")

  const AuthenticityMemes: seq<MemeConfig> := [RealThing, GrandmaFood, HomemadeWine, Bazaar, Authentic, Simple]

  // Escape from everyday life.

  const Escape := MemeConfig("escape", "Побег от суеты",
    "другой мир, без пробок, перезагрузка",
    "Здесь нет пробок — только море и горы")
  const DigitalDetox := MemeConfig("digital_detox", "Убрать телефон",
    "смотреть, а не снимать",
    "Закат такой, что телефон убрали — просто смотрим")
  const MountainsFreedom := MemeConfig("mountains_freedom", "Горы = свобода",
    "высота, масштаб, всё мелочи",
    "Смотришь с горы — и все проблемы кажутся мелкими")
  const FreshAir := MemeConfig("fresh_air", "Свежий воздух",
    "не кондиционер, природа, здоровье",
    "Воздух такой, что дышишь и не надышишься")

  const EscapeMemes: seq<MemeConfig> := [Escape, DigitalDetox, MountainsFreedom, FreshAir]

  // Social ties.

  const Hospitality := MemeConfig("hospitality", "Кавказское гостеприимство",
    "накормят, не отпустят",
    "Хозяин не отпустит, пока не поешь трижды")
  const Feast := MemeConfig("feast", "Застолье",
    "большой стол, тосты, долгие разговоры",
    "Обед на 3 часа — это не обед, это событие")
  const Soulful := MemeConfig("soulful", "Душевно",
    "не сервис, а тепло, искренность",
    "Официант уже как друг — советует от души")
  const Traditions := MemeConfig("traditions", "Традиции",
    "от прабабушки, не меняли",
    "Рецепт 100 лет — и менять не собираются")

  const SocialMemes: seq<MemeConfig> := [Hospitality, Feast, Soulful, Traditions]

  // Millennial values.

  const Discovery := MemeConfig("discovery", "Открытия",
    "не по туристическим тропам, своё",
    "Нашли место — в путеводителях такого нет")
  const History := MemeConfig("history", "История",
    "связь времён, глубина",
    "Этой крепости 500 лет — представляете?")
  const FairPrice := MemeConfig("fair_price", "Справедливая цена",
    "честно, за эти деньги",
    "За эти деньги в Москве — бизнес-ланч. Здесь — пир")
  const HumanWay := MemeConfig("human_way", "По-человечески",
    "не all-inclusive, живое общение",
    "Не отель-браслет, а живые люди и истории")

  const MillennialMemes: seq<MemeConfig> := [Discovery, History, FairPrice, HumanWay]

  // Family.

  const KidsHappy := MemeConfig("kids_happy", "Дети в восторге",
    "детские эмоции, радость",
    "Ребёнок увидел дельфинов — это бесценно")
  const FamilyMemories := MemeConfig("family_memories", "Семейные воспоминания",
    "фото на холодильник, вспоминать",
    "Это фото — на холодильник, будем вспоминать")
  const Safety := MemeConfig("safety", "Безопасность",
    "дети бегают спокойно, расслабленность",
    "Дети носятся — и никто не дёргается")

  const FamilyMemes: seq<MemeConfig> := [KidsHappy, FamilyMemories, Safety]

  /** `MEMES`: the six groups in declaration order. */
  const AllMemes: seq<MemeConfig> :=
    NostalgiaMemes + AuthenticityMemes + EscapeMemes + SocialMemes + MillennialMemes + FamilyMemes

  /** `get_all_memes`: the table itself, in declaration order, 27 entries. */
  function GetAllMemes(): (r: seq<MemeConfig>)
    ensures r == AllMemes && |r| == 27
  {
    AllMemes
  }

  /** `get_total_memes`: the length of the table, which is 27. */
  function GetTotalMemes(): (n: nat)
    ensures n == |AllMemes| && n == 27
  {
    |AllMemes|
  }

  // ---------------------------------------------------------------------
  // Ids are unique
  // ---------------------------------------------------------------------

  /** No two memes share an id. */
  predicate IdsUnique(ms: seq<MemeConfig>) {
    forall i, j :: 0 <= i < j < |ms| ==> ms[i].id != ms[j].id
  }

  /** No meme of `a` shares its id with a meme of `b`. */
  predicate Apart(a: seq<MemeConfig>, b: seq<MemeConfig>) {
    forall i, j :: 0 <= i < |a| && 0 <= j < |b| ==> a[i].id != b[j].id
  }

  lemma UniqueConcat(a: seq<MemeConfig>, b: seq<MemeConfig>)
    requires IdsUnique(a) && IdsUnique(b) && Apart(a, b)
    ensures IdsUnique(a + b)
  {
    var ab := a + b;
    forall i, j | 0 <= i < j < |ab|
      ensures ab[i].id != ab[j].id
    {
      if j < |a| {
        assert ab[i] == a[i] && ab[j] == a[j];
      } else if i < |a| {
        assert ab[i] == a[i] && ab[j] == b[j - |a|];
      } else {
        assert ab[i] == b[i - |a|] && ab[j] == b[j - |a|];
      }
    }
  }

  lemma ApartConcat(a: seq<MemeConfig>, b: seq<MemeConfig>, c: seq<MemeConfig>)
    requires Apart(a, c) && Apart(b, c)
    ensures Apart(a + b, c)
  {
    var ab := a + b;
    forall i, j | 0 <= i < |ab| && 0 <= j < |c|
      ensures ab[i].id != c[j].id
    {
      if i < |a| {
        assert ab[i] == a[i];
      } else {
        assert ab[i] == b[i - |a|];
      }
    }
  }

  lemma EarlyGroupsUnique()
    ensures IdsUnique(NostalgiaMemes) && IdsUnique(AuthenticityMemes) && IdsUnique(EscapeMemes)
  {
  }

  lemma LateGroupsUnique()
    ensures IdsUnique(SocialMemes) && IdsUnique(MillennialMemes) && IdsUnique(FamilyMemes)
  {
  }

  lemma NostalgiaApartEarly()
    ensures Apart(NostalgiaMemes, AuthenticityMemes) && Apart(NostalgiaMemes, EscapeMemes)
  {
  }

  lemma NostalgiaApartLate()
    ensures Apart(NostalgiaMemes, SocialMemes) && Apart(NostalgiaMemes, MillennialMemes)
    ensures Apart(NostalgiaMemes, FamilyMemes)
  {
  }

  lemma AuthenticityApart()
    ensures Apart(AuthenticityMemes, EscapeMemes) && Apart(AuthenticityMemes, SocialMemes)
    ensures Apart(AuthenticityMemes, MillennialMemes) && Apart(AuthenticityMemes, FamilyMemes)
  {
  }

  lemma LaterGroupsApart()
    ensures Apart(EscapeMemes, SocialMemes) && Apart(EscapeMemes, MillennialMemes) && Apart(EscapeMemes, FamilyMemes)
    ensures Apart(SocialMemes, MillennialMemes) && Apart(SocialMemes, FamilyMemes) && Apart(MillennialMemes, FamilyMemes)
  {
  }

  /** Every id in the table is unique, as the declaration of the id field says. */
  lemma AllMemeIdsUnique()
    ensures IdsUnique(AllMemes)
  {
    EarlyGroupsUnique();
    LateGroupsUnique();
    NostalgiaApartEarly();
    NostalgiaApartLate();
    AuthenticityApart();
    LaterGroupsApart();
    var na := NostalgiaMemes + AuthenticityMemes;
    UniqueConcat(NostalgiaMemes, AuthenticityMemes);
    ApartConcat(NostalgiaMemes, AuthenticityMemes, EscapeMemes);
    UniqueConcat(na, EscapeMemes);
    var nae := na + EscapeMemes;
    ApartConcat(NostalgiaMemes, AuthenticityMemes, SocialMemes);
    ApartConcat(na, EscapeMemes, SocialMemes);
    UniqueConcat(nae, SocialMemes);
    var naes := nae + SocialMemes;
    ApartConcat(NostalgiaMemes, AuthenticityMemes, MillennialMemes);
    ApartConcat(na, EscapeMemes, MillennialMemes);
    ApartConcat(nae, SocialMemes, MillennialMemes);
    UniqueConcat(naes, MillennialMemes);
    var naesm := naes + MillennialMemes;
    ApartConcat(NostalgiaMemes, AuthenticityMemes, FamilyMemes);
    ApartConcat(na, EscapeMemes, FamilyMemes);
    ApartConcat(nae, SocialMemes, FamilyMemes);
    ApartConcat(naes, MillennialMemes, FamilyMemes);
    UniqueConcat(naesm, FamilyMemes);
  }

  // ---------------------------------------------------------------------
  // Lookup by id
  // ---------------------------------------------------------------------

  /** The first meme of `ms` whose id is `id`, or None. */
  function MemeWithId(ms: seq<MemeConfig>, id: string): (r: Option<MemeConfig>)
    ensures r.None? <==> forall i :: 0 <= i < |ms| ==> ms[i].id != id
    ensures r.Some? ==> r.value in ms && r.value.id == id
  {
    if ms == [] then None
    else if ms[0].id == id then Some(ms[0])
    else MemeWithId(ms[1..], id)
  }

  /** In a table with unique ids, looking up a meme's id finds that meme. */
  lemma {:induction false} MemeWithIdUnique(ms: seq<MemeConfig>, k: nat)
    requires IdsUnique(ms) && k < |ms|
    ensures MemeWithId(ms, ms[k].id) == Some(ms[k])
  {
    if k > 0 {
      var tail := ms[1..];
      assert ms[0].id != ms[k].id;
      assert IdsUnique(tail) by {
        forall i, j | 0 <= i < j < |tail|
          ensures tail[i].id != tail[j].id
        {
          assert tail[i] == ms[i + 1] && tail[j] == ms[j + 1];
        }
      }
      MemeWithIdUnique(tail, k - 1);
      assert tail[k - 1] == ms[k];
    }
  }

  /** The first-match loop of a lookup by id over a table. */
  method FindById(ms: seq<MemeConfig>, id: string) returns (r: Option<MemeConfig>)
    ensures r == MemeWithId(ms, id)
  {
    for i := 0 to |ms|
      invariant MemeWithId(ms[i..], id) == MemeWithId(ms, id)
    {
      assert ms[i..][1..] == ms[i + 1..];
      if ms[i].id == id {
        return Some(ms[i]);
      }
    }
    assert ms[|ms|..] == [];
    return None;
  }

  /** `get_meme_by_id`: the meme with that id, or None when no meme has it. */
  method GetMemeById(id: string) returns (r: Option<MemeConfig>)
    ensures r == MemeWithId(AllMemes, id)
  {
    r := FindById(AllMemes, id);
  }

  /** Every meme of the table is found by its own id. */
  lemma LookupFindsEveryMeme(k: nat)
    requires k < |AllMemes|
    ensures MemeWithId(AllMemes, AllMemes[k].id) == Some(AllMemes[k])
  {
    AllMemeIdsUnique();
    MemeWithIdUnique(AllMemes, k);
  }

  // ---------------------------------------------------------------------
  // The prompt block
  // ---------------------------------------------------------------------

  /** The two prompt lines of one meme: its id, name and trigger, then its example. */
  function MemeLines(m: MemeConfig): seq<string> {
    ["- " + m.id + ": \"" + m.name + "\" — " + m.trigger, "  Пример: " + m.example]
  }

  /** The prompt lines of a table, two per meme, in table order. */
  function PromptLines(ms: seq<MemeConfig>): (r: seq<string>)
    ensures |r| == 2 * |ms|
  {
    if ms == [] then [] else PromptLines(ms[..|ms| - 1]) + MemeLines(ms[|ms| - 1])
  }

  /** Lines 2k and 2k+1 are the two lines of meme k. */
  lemma {:induction false} PromptLinesAt(ms: seq<MemeConfig>, k: nat)
    requires k < |ms|
    ensures PromptLines(ms)[2 * k] == MemeLines(ms[k])[0]
    ensures PromptLines(ms)[2 * k + 1] == MemeLines(ms[k])[1]
  {
    var init := ms[..|ms| - 1];
    if k < |ms| - 1 {
      PromptLinesAt(init, k);
      assert init[k] == ms[k];
    }
  }

  /** The line-building loop of the prompt block over a table. */
  method FormatMemes(ms: seq<MemeConfig>) returns (s: string)
    ensures s == Join("\n", PromptLines(ms))
  {
    var lines := [];
    for i := 0 to |ms|
      invariant lines == PromptLines(ms[..i])
    {
      var m := ms[i];
      assert ms[..i + 1][..i] == ms[..i] && ms[..i + 1][i] == m;
      lines := lines + ["- " + m.id + ": \"" + m.name + "\" — " + m.trigger];
      lines := lines + ["  Пример: " + m.example];
    }
    assert ms[..|ms|] == ms;
    s := Join("\n", lines);
  }

  /** `format_memes_for_prompt`: the 54 lines of the table joined by newlines. */
  method FormatMemesForPrompt() returns (s: string)
    ensures s == Join("\n", PromptLines(AllMemes))
  {
    s := FormatMemes(AllMemes);
  }

  /** A meme none of whose fields holds a line break. */
  predicate OneLine(m: MemeConfig) {
    '\n' !in m.id && '\n' !in m.name && '\n' !in m.trigger && '\n' !in m.example
  }

  /** Neither line of a single-line meme holds a line break. */
  lemma MemeLinesOneLine(m: MemeConfig)
    requires OneLine(m)
    ensures !Contains(MemeLines(m)[0], "\n") && !Contains(MemeLines(m)[1], "\n")
  {
    var l := MemeLines(m);
    assert '\n' !in "- " && '\n' !in ": \"" && '\n' !in "\" — " && '\n' !in "  Пример: ";
    ContainsChar(l[0], '\n');
    ContainsChar(l[1], '\n');
  }

  /** The prompt lines of single-line memes hold no line break. */
  lemma {:induction false} PromptLinesOneLine(ms: seq<MemeConfig>)
    requires forall i :: 0 <= i < |ms| ==> OneLine(ms[i])
    ensures forall n :: 0 <= n < |PromptLines(ms)| ==> !Contains(PromptLines(ms)[n], "\n")
  {
    if ms != [] {
      var init, last := ms[..|ms| - 1], ms[|ms| - 1];
      PromptLinesOneLine(init);
      MemeLinesOneLine(last);
      var a, b := PromptLines(init), MemeLines(last);
      assert PromptLines(ms) == a + b;
      forall n | 0 <= n < |a + b|
        ensures !Contains((a + b)[n], "\n")
      {
        if n < |a| {
          assert (a + b)[n] == a[n];
        } else {
          assert (a + b)[n] == b[n - |a|];
        }
      }
    }
  }

  /**
   * When no field holds a line break, splitting the block on newlines
   * gives back exactly the two lines per meme: the block has one line
   * per entry and no trailing newline.
   */
  lemma FormatSplitsIntoLines(ms: seq<MemeConfig>)
    requires ms != []
    requires forall i :: 0 <= i < |ms| ==> OneLine(ms[i])
    ensures Split(Join("\n", PromptLines(ms)), "\n") == PromptLines(ms)
  {
    PromptLinesOneLine(ms);
    SplitJoin(PromptLines(ms), "\n");
  }
}
