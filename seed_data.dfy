/** `create_sample_ads`: fill an empty ads table with five sample ads. */
module SeedData {
  import opened Common
  import opened Models
  import opened Backend

  datatype SampleAd = SampleAd(title: string, description: string, reward: int, imageUrl: string)

  /** `sample_ads`, in list order. */
  const SampleAds: seq<SampleAd> := [
      SampleAd("Новый iPhone 15 Pro",
               "Посмотрите обзор нового iPhone 15 Pro с улучшенной камерой и процессором A17 Pro. Узнайте о всех новых функциях и возможностях.",
               10,
               "https://images.unsplash.com/photo-1592750475338-74b7b21085ab?w=400&h=300&fit=crop"),
      SampleAd("Курс по программированию",
               "Изучите основы программирования на Python за 30 дней. Интерактивные уроки, практические задания и сертификат по окончании.",
               15,
               "https://images.unsplash.com/photo-1461749280684-dccba630e2f6?w=400&h=300&fit=crop"),
      SampleAd("Фитнес-приложение",
               "Следите за своим здоровьем с нашим новым фитнес-приложением. Трекинг тренировок, питание и мотивация каждый день.",
               8,
               "https://images.unsplash.com/photo-1571019613454-1cb2f99b2d8b?w=400&h=300&fit=crop"),
      SampleAd("Инвестиции в криптовалюты",
               "Узнайте, как правильно инвестировать в криптовалюты. Анализ рынка, стратегии и управление рисками от экспертов.",
               20,
               "https://images.unsplash.com/photo-1639762681485-074b7f938ba0?w=400&h=300&fit=crop"),
      SampleAd("Онлайн-магазин модной одежды",
               "Новая коллекция весенней одежды уже в продаже! Скидки до 50% на все товары. Бесплатная доставка по всей стране.",
               12,
               "https://images.unsplash.com/photo-1441986300917-64674bd600d8?w=400&h=300&fit=crop")
  ]

  /** The rows the five inserts create when the next ad id is `firstId`. */
  function SeededRows(firstId: int, samples: seq<SampleAd>): (rows: seq<Ad>)
    ensures |rows| == |samples|
    ensures forall i :: 0 <= i < |rows| ==>
      rows[i] == NewAd(firstId + i, samples[i].title, samples[i].description,
                       samples[i].reward, Some(samples[i].imageUrl))
    decreases |samples|
  {
    if samples == [] then []
    else [NewAd(firstId, samples[0].title, samples[0].description, samples[0].reward, Some(samples[0].imageUrl))]
         + SeededRows(firstId + 1, samples[1..])
  }

  /** Inserting one more sample extends the rows by that sample's row. */
  lemma SeededRowsSnoc(firstId: int, samples: seq<SampleAd>, s: SampleAd)
    ensures SeededRows(firstId, samples + [s])
         == SeededRows(firstId, samples) + [NewAd(firstId + |samples|, s.title, s.description, s.reward, Some(s.imageUrl))]
  {
    var lhs := SeededRows(firstId, samples + [s]);
    var rhs := SeededRows(firstId, samples) + [NewAd(firstId + |samples|, s.title, s.description, s.reward, Some(s.imageUrl))];
    assert |lhs| == |rhs|;
    forall i | 0 <= i < |lhs| ensures lhs[i] == rhs[i] {
      assert (samples + [s])[i] == if i < |samples| then samples[i] else s;
    }
  }

  /** The ads table after seeding: unchanged if it held any ad, else the five samples. */
  function AfterSeeding(ads: seq<Ad>, nextAdId: int): (r: seq<Ad>)
    ensures |ads| > 0 ==> r == ads
    ensures |ads| == 0 ==> r == SeededRows(nextAdId, SampleAds)
  {
    if |ads| > 0 then ads else SeededRows(nextAdId, SampleAds)
  }

  /** Seeding twice leaves the table seeding once leaves, whatever ids the second run would use. */
  lemma SeedingIdempotent(ads: seq<Ad>, nextAdId: int, laterNextAdId: int)
    ensures AfterSeeding(AfterSeeding(ads, nextAdId), laterNextAdId) == AfterSeeding(ads, nextAdId)
  {
  }

  /** Every sample ad pays a positive reward: 10, 15, 8, 20 and 12 coins. */
  lemma SampleRewardsPositive()
    ensures |SampleAds| == 5
    ensures SampleAds[0].reward == 10 && SampleAds[1].reward == 15 && SampleAds[2].reward == 8
    ensures SampleAds[3].reward == 20 && SampleAds[4].reward == 12
    ensures forall i :: 0 <= i < |SampleAds| ==> SampleAds[i].reward > 0
  {
  }

  /** The `for` loop of `create_sample_ads`: one insert per sample, in list order. */
  method InsertSamples(db: Store, samples: seq<SampleAd>)
    requires db.Valid()
    requires forall i :: 0 <= i < |samples| ==> samples[i].reward >= 0
    modifies db
    ensures db.Valid()
    ensures old(db.Solvent()) ==> db.Solvent()
    ensures db.ads == old(db.ads) + SeededRows(old(db.nextAdId), samples)
    ensures db.nextAdId == old(db.nextAdId) + |samples|
    ensures unchanged(db`users, db`views, db`applications)
    ensures unchanged(db`nextUserId, db`nextViewId, db`nextApplicationId)
  {
    ghost var firstId := db.nextAdId;
    for i := 0 to |samples|
      invariant db.Valid()
      invariant old(db.Solvent()) ==> db.Solvent()
      invariant db.nextAdId == firstId + i
      invariant db.ads == old(db.ads) + SeededRows(firstId, samples[..i])
      invariant unchanged(db`users, db`views, db`applications)
      invariant unchanged(db`nextUserId, db`nextViewId, db`nextApplicationId)
    {
      var s := samples[i];
      var ad := db.InsertAd(s.title, s.description, s.reward, Some(s.imageUrl));
      SeededRowsSnoc(firstId, samples[..i], s);
      assert samples[..i + 1] == samples[..i] + [s];
      assert db.ads == old(db.ads) + (SeededRows(firstId, samples[..i]) + [ad]);
    }
    assert samples[..|samples|] == samples;
  }

  /** `create_sample_ads`: nothing if the table holds an ad, else the five inserts. */
  method CreateSampleAds(db: Store)
    requires db.Valid()
    modifies db
    ensures db.Valid()
    ensures old(db.Solvent()) ==> db.Solvent()
    ensures db.ads == AfterSeeding(old(db.ads), old(db.nextAdId))
    ensures unchanged(db`users, db`views, db`applications)
    ensures db.nextAdId == old(db.nextAdId) + (if |old(db.ads)| == 0 then |SampleAds| else 0)
    ensures unchanged(db`nextUserId, db`nextViewId, db`nextApplicationId)
  {
    if |db.ads| > 0 {
      return;
    }
    SampleRewardsPositive();
    InsertSamples(db, SampleAds);
  }
}
