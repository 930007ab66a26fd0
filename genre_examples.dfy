/**
 * Worked examples of `normalize_genre`, each traced through the sentinel
 * test, the suffix removal and both table scans.
 */
module GenreExamples {
  import opened Wrappers
  import opened Text
  import opened GenreNormalize

  lemma NoSpecialHit0(low: string)
    requires !Contains(low, "electro-pop") && !Contains(low, "electro pop")
    ensures !AnyIn(SpecialCases[0].1, low)
  {
  }

  lemma NoSpecialHit1(low: string)
    requires !Contains(low, "anime rap")
    ensures !AnyIn(SpecialCases[1].1, low)
  {
  }

  lemma NoSpecialHit2(low: string)
    requires !Contains(low, "electronica") && !Contains(low, "edm")
    ensures !AnyIn(SpecialCases[2].1, low)
  {
  }

  lemma NoSpecialHit3(low: string)
    requires !Contains(low, "hardcore punk")
    ensures !AnyIn(SpecialCases[3].1, low)
  {
  }

  lemma NoSpecialHit4(low: string)
    requires !Contains(low, "bass music")
    ensures !AnyIn(SpecialCases[4].1, low)
  {
  }

  lemma NoSpecialHit5(low: string)
    requires !Contains(low, "m\U{00FA}sica popular brasileira")
    ensures !AnyIn(SpecialCases[5].1, low)
  {
  }

  lemma NoUmbrellaHit0(low: string)
    requires !Contains(low, "brazilian")
    ensures !AnyIn(GenreMappings[0].1, low)
  {
  }

  lemma NoUmbrellaHit1(low: string)
    requires !Contains(low, "metal") && !Contains(low, "djent")
    ensures !AnyIn(GenreMappings[1].1, low)
  {
  }

  lemma NoUmbrellaHit2(low: string)
    requires !Contains(low, "emo")
    ensures !AnyIn(GenreMappings[2].1, low)
  {
  }

  lemma NoUmbrellaHit3(low: string)
    requires !Contains(low, "rap") && !Contains(low, "hip hop") && !Contains(low, "hip-hop")
    ensures !AnyIn(GenreMappings[3].1, low)
  {
  }

  lemma NoUmbrellaHit4(low: string)
    requires !Contains(low, "folk")
    ensures !AnyIn(GenreMappings[4].1, low)
  {
  }

  lemma NoUmbrellaHit5(low: string)
    requires !Contains(low, "industrial")
    ensures !AnyIn(GenreMappings[5].1, low)
  {
  }

  lemma NoUmbrellaHit6(low: string)
    requires !Contains(low, "alternative") && !Contains(low, "indie") && !Contains(low, "alt")
    ensures !AnyIn(GenreMappings[6].1, low)
  {
  }

  lemma NoUmbrellaHit7(low: string)
    requires !Contains(low, "rock") && !Contains(low, "hardcore") && !Contains(low, "grunge") && !Contains(low, "metal")
    ensures !AnyIn(GenreMappings[7].1, low)
  {
  }

  lemma NoUmbrellaHit8(low: string)
    requires !Contains(low, "punk")
    ensures !AnyIn(GenreMappings[8].1, low)
  {
  }

  lemma NoUmbrellaHit9(low: string)
    requires !Contains(low, "glam")
    ensures !AnyIn(GenreMappings[9].1, low)
  {
  }

  lemma NoUmbrellaHit10(low: string)
    requires !Contains(low, "country")
    ensures !AnyIn(GenreMappings[10].1, low)
  {
  }

  lemma NoUmbrellaHit11(low: string)
    requires !Contains(low, "sertanejo")
    ensures !AnyIn(GenreMappings[11].1, low)
  {
  }

  lemma NoUmbrellaHit12(low: string)
    requires !Contains(low, "mpb")
    ensures !AnyIn(GenreMappings[12].1, low)
  {
  }

  lemma NoUmbrellaHit13(low: string)
    requires !Contains(low, "blues") && !Contains(low, "r&b") && !Contains(low, "rhythm and blues")
    ensures !AnyIn(GenreMappings[13].1, low)
  {
  }

  lemma NoUmbrellaHit14(low: string)
    requires !Contains(low, "kei") && !Contains(low, "japanese music") && !Contains(low, "kayokyoku") && !Contains(low, "j-pop") && !Contains(low, "shibuya-kei") && !Contains(low, "j-rock") && !Contains(low, "anime") && !Contains(low, "japanese indie") && !Contains(low, "j-rap") && !Contains(low, "vocaloid")
    ensures !AnyIn(GenreMappings[14].1, low)
  {
  }

  lemma NoUmbrellaHit15(low: string)
    requires !Contains(low, "comedy") && !Contains(low, "meme")
    ensures !AnyIn(GenreMappings[15].1, low)
  {
  }

  lemma ElectroPopStripped(genre: string)
    requires genre == "electro-pop"
    ensures Strip(genre) == "electro-pop"
  {
    
  }

  lemma ElectroPopStrippedLower(s: string)
    requires s == "electro-pop"
    ensures Lower(s) == "electro-pop"
  {
  }

  lemma ElectroPopNotSentinel(genre: string)
    requires genre == "electro-pop"
    ensures !IsSentinel(genre)
  {
    ElectroPopStripped(genre);
    ElectroPopStrippedLower(Strip(genre));
  }

  lemma ElectroPopKeeps(genre: string)
    requires genre == "electro-pop"
    ensures !KeepsMusic(genre)
  {
    
  }

  lemma ElectroPopDrop(genre: string)
    requires genre == "electro-pop"
    ensures DropMusicSuffix(genre) == "electro-pop"
  {
    assert genre[|genre| - 6..] == "ro-pop";
    assert Lower("ro-pop")[0] != " music"[0];
  }

  lemma ElectroPopSScan(low: string)
    requires low == "electro-pop"
    ensures FirstHit(SpecialCases, low) == Some(0)
  {
    ContainsAt(low, "electro-pop", 0);
    assert "electro-pop" in SpecialCases[0].1;
    FirstHitAt(SpecialCases, low, 0);
  }

  lemma ElectroPopLabel()
    ensures SpecialLabel(0) == "Electropop"
  {
  }

  /** The first special case whose substring occurs wins alone. */
  lemma ElectroPop(genre: string)
    requires genre == "electro-pop"
    ensures Normalized(genre) == ["Electropop"]
  {
    ElectroPopNotSentinel(genre);
    ElectroPopKeeps(genre);
    ElectroPopDrop(genre);
    ElectroPopStripped(DropMusicSuffix(genre));
    ElectroPopStrippedLower(CleanGenre(genre));
    ElectroPopSScan(Lower(CleanGenre(genre)));
    ElectroPopLabel();
    SpecialCaseWins(genre, 0);
  }

  lemma HardcorePunkStripped(genre: string)
    requires genre == "hardcore punk"
    ensures Strip(genre) == "hardcore punk"
  {
    
  }

  lemma HardcorePunkStrippedLower(s: string)
    requires s == "hardcore punk"
    ensures Lower(s) == "hardcore punk"
  {
  }

  lemma HardcorePunkNotSentinel(genre: string)
    requires genre == "hardcore punk"
    ensures !IsSentinel(genre)
  {
    HardcorePunkStripped(genre);
    HardcorePunkStrippedLower(Strip(genre));
  }

  lemma HardcorePunkKeeps(genre: string)
    requires genre == "hardcore punk"
    ensures !KeepsMusic(genre)
  {
    
  }

  lemma HardcorePunkDrop(genre: string)
    requires genre == "hardcore punk"
    ensures DropMusicSuffix(genre) == "hardcore punk"
  {
    assert genre[|genre| - 6..] == "e punk";
    assert Lower("e punk")[0] != " music"[0];
  }

  lemma HardcorePunkSMiss0(low: string)
    requires low == "hardcore punk"
    ensures !AnyIn(SpecialCases[0].1, low)
    ensures !AnyIn(SpecialCases[1].1, low)
  {
    MissingChar(low, "electro-pop", 'l');
    MissingChar(low, "electro pop", 'l');
    NoSpecialHit0(low);
    MissingChar(low, "anime rap", 'i');
    NoSpecialHit1(low);
  }

  lemma HardcorePunkSMiss1(low: string)
    requires low == "hardcore punk"
    ensures !AnyIn(SpecialCases[2].1, low)
  {
    MissingChar(low, "electronica", 'l');
    MissingChar(low, "edm", 'm');
    NoSpecialHit2(low);
  }

  lemma HardcorePunkSScan(low: string)
    requires low == "hardcore punk"
    ensures FirstHit(SpecialCases, low) == Some(3)
  {
    HardcorePunkSMiss0(low);
    HardcorePunkSMiss1(low);
    forall j | 0 <= j < 3 ensures !AnyIn(SpecialCases[j].1, low) {
      if j == 0 { } else if j == 1 { } else { }
    }
    ContainsAt(low, "hardcore punk", 0);
    assert "hardcore punk" in SpecialCases[3].1;
    FirstHitAt(SpecialCases, low, 3);
  }

  lemma HardcorePunkLabel()
    ensures SpecialLabel(3) == "Hardcore"
  {
  }

  /** A special case is tried before the umbrella "rock" entry that also matches. */
  lemma HardcorePunk(genre: string)
    requires genre == "hardcore punk"
    ensures Normalized(genre) == ["Hardcore"]
  {
    HardcorePunkNotSentinel(genre);
    HardcorePunkKeeps(genre);
    HardcorePunkDrop(genre);
    HardcorePunkStripped(DropMusicSuffix(genre));
    HardcorePunkStrippedLower(CleanGenre(genre));
    HardcorePunkSScan(Lower(CleanGenre(genre)));
    HardcorePunkLabel();
    SpecialCaseWins(genre, 3);
  }

  lemma AnimeRapStripped(genre: string)
    requires genre == "anime rap"
    ensures Strip(genre) == "anime rap"
  {
    
  }

  lemma AnimeRapStrippedLower(s: string)
    requires s == "anime rap"
    ensures Lower(s) == "anime rap"
  {
  }

  lemma AnimeRapNotSentinel(genre: string)
    requires genre == "anime rap"
    ensures !IsSentinel(genre)
  {
    AnimeRapStripped(genre);
    AnimeRapStrippedLower(Strip(genre));
  }

  lemma AnimeRapKeeps(genre: string)
    requires genre == "anime rap"
    ensures !KeepsMusic(genre)
  {
    
  }

  lemma AnimeRapDrop(genre: string)
    requires genre == "anime rap"
    ensures DropMusicSuffix(genre) == "anime rap"
  {
    assert genre[|genre| - 6..] == "me rap";
    assert Lower("me rap")[0] != " music"[0];
  }

  lemma AnimeRapSMiss0(low: string)
    requires low == "anime rap"
    ensures !AnyIn(SpecialCases[0].1, low)
  {
    MissingChar(low, "electro-pop", 'l');
    MissingChar(low, "electro pop", 'l');
    NoSpecialHit0(low);
  }

  lemma AnimeRapSScan(low: string)
    requires low == "anime rap"
    ensures FirstHit(SpecialCases, low) == Some(1)
  {
    AnimeRapSMiss0(low);
    forall j | 0 <= j < 1 ensures !AnyIn(SpecialCases[j].1, low) {
      { }
    }
    ContainsAt(low, "anime rap", 0);
    assert "anime rap" in SpecialCases[1].1;
    FirstHitAt(SpecialCases, low, 1);
  }

  lemma AnimeRapLabel()
    ensures SpecialLabel(1) == "Anime"
  {
  }

  /** A special case is tried before the umbrella "Japanese Music" entry that also matches. */
  lemma AnimeRap(genre: string)
    requires genre == "anime rap"
    ensures Normalized(genre) == ["Anime"]
  {
    AnimeRapNotSentinel(genre);
    AnimeRapKeeps(genre);
    AnimeRapDrop(genre);
    AnimeRapStripped(DropMusicSuffix(genre));
    AnimeRapStrippedLower(CleanGenre(genre));
    AnimeRapSScan(Lower(CleanGenre(genre)));
    AnimeRapLabel();
    SpecialCaseWins(genre, 1);
  }

  lemma AlternativeMetalStripped(genre: string)
    requires genre == "alternative metal"
    ensures Strip(genre) == "alternative metal"
  {
    
  }

  lemma AlternativeMetalStrippedLower(s: string)
    requires s == "alternative metal"
    ensures Lower(s) == "alternative metal"
  {
  }

  lemma AlternativeMetalNotSentinel(genre: string)
    requires genre == "alternative metal"
    ensures !IsSentinel(genre)
  {
    AlternativeMetalStripped(genre);
    AlternativeMetalStrippedLower(Strip(genre));
  }

  lemma AlternativeMetalKeeps(genre: string)
    requires genre == "alternative metal"
    ensures !KeepsMusic(genre)
  {
    
  }

  lemma AlternativeMetalDrop(genre: string)
    requires genre == "alternative metal"
    ensures DropMusicSuffix(genre) == "alternative metal"
  {
    assert genre[|genre| - 6..] == " metal";
    assert Lower(" metal")[2] != " music"[2];
  }

  lemma AlternativeMetalSMiss0(low: string)
    requires low == "alternative metal"
    ensures !AnyIn(SpecialCases[0].1, low)
    ensures !AnyIn(SpecialCases[1].1, low)
  {
    MissingChar(low, "electro-pop", 'c');
    MissingChar(low, "electro pop", 'c');
    NoSpecialHit0(low);
    MissingChar(low, "anime rap", 'p');
    NoSpecialHit1(low);
  }

  lemma AlternativeMetalSMiss1(low: string)
    requires low == "alternative metal"
    ensures !AnyIn(SpecialCases[2].1, low)
    ensures !AnyIn(SpecialCases[3].1, low)
    ensures !AnyIn(SpecialCases[4].1, low)
  {
    AlternativeMetalElectronic(low);
    AlternativeMetalHardcore(low);
    AlternativeMetalBass(low);
  }

  lemma AlternativeMetalElectronic(low: string)
    requires low == "alternative metal"
    ensures !AnyIn(SpecialCases[2].1, low)
  {
    MissingChar(low, "electronica", 'c');
    MissingChar(low, "edm", 'd');
    NoSpecialHit2(low);
  }

  lemma AlternativeMetalHardcore(low: string)
    requires low == "alternative metal"
    ensures !AnyIn(SpecialCases[3].1, low)
  {
    MissingChar(low, "hardcore punk", 'h');
    NoSpecialHit3(low);
  }

  lemma AlternativeMetalBass(low: string)
    requires low == "alternative metal"
    ensures !AnyIn(SpecialCases[4].1, low)
  {
    MissingChar(low, "bass music", 'b');
    NoSpecialHit4(low);
  }

  lemma AlternativeMetalSMiss2(low: string)
    requires low == "alternative metal"
    ensures !AnyIn(SpecialCases[5].1, low)
  {
    MissingChar(low, "m\U{00FA}sica popular brasileira", '\U{00FA}');
    NoSpecialHit5(low);
  }

  lemma AlternativeMetalSScan(low: string)
    requires low == "alternative metal"
    ensures FirstHit(SpecialCases, low) == None
  {
    AlternativeMetalSMiss0(low);
    AlternativeMetalSMiss1(low);
    AlternativeMetalSMiss2(low);
    forall j | 0 <= j < |SpecialCases| ensures !AnyIn(SpecialCases[j].1, low) {
      if j == 0 { } else if j == 1 { } else if j == 2 { } else if j == 3 { } else if j == 4 { } else { }
    }
    NoHit(SpecialCases, low);
  }

  lemma AlternativeMetalGMiss0(low: string)
    requires low == "alternative metal"
    ensures !AnyIn(GenreMappings[0].1, low)
  {
    MissingChar(low, "brazilian", 'b');
    NoUmbrellaHit0(low);
  }

  lemma AlternativeMetalGScan(low: string)
    requires low == "alternative metal"
    ensures FirstHit(GenreMappings, low) == Some(1)
  {
    AlternativeMetalGMiss0(low);
    forall j | 0 <= j < 1 ensures !AnyIn(GenreMappings[j].1, low) {
      { }
    }
    ContainsAt(low, "metal", 12);
    assert "metal" in GenreMappings[1].1;
    FirstHitAt(GenreMappings, low, 1);
  }

  lemma MetalTitleKey(s: string)
    requires s == "metal"
    ensures Title(s) == "Metal"
  {
  }

  lemma MetalLabel()
    ensures UmbrellaLabel(1) == "Metal"
  {
    MetalTitleKey(GenreMappings[1].0);
  }

  /** The umbrella table stops at its first hit: "metal" before "indie and alternative" and "rock". */
  lemma AlternativeMetal(genre: string)
    requires genre == "alternative metal"
    ensures Normalized(genre) == ["Metal"]
  {
    AlternativeMetalNotSentinel(genre);
    AlternativeMetalKeeps(genre);
    AlternativeMetalDrop(genre);
    AlternativeMetalStripped(DropMusicSuffix(genre));
    AlternativeMetalStrippedLower(CleanGenre(genre));
    AlternativeMetalSScan(Lower(CleanGenre(genre)));
    AlternativeMetalGScan(Lower(CleanGenre(genre)));
    MetalLabel();
    UmbrellaLabelKept(genre, 1);
  }

  lemma JRockStripped(genre: string)
    requires genre == "j-rock"
    ensures Strip(genre) == "j-rock"
  {
    
  }

  lemma JRockStrippedLower(s: string)
    requires s == "j-rock"
    ensures Lower(s) == "j-rock"
  {
  }

  lemma JRockNotSentinel(genre: string)
    requires genre == "j-rock"
    ensures !IsSentinel(genre)
  {
    JRockStripped(genre);
    JRockStrippedLower(Strip(genre));
  }

  lemma JRockKeeps(genre: string)
    requires genre == "j-rock"
    ensures !KeepsMusic(genre)
  {
    
  }

  lemma JRockDrop(genre: string)
    requires genre == "j-rock"
    ensures DropMusicSuffix(genre) == "j-rock"
  {
    assert genre[|genre| - 6..] == "j-rock";
    assert Lower("j-rock")[0] != " music"[0];
  }

  lemma JRockSMiss0(low: string)
    requires low == "j-rock"
    ensures !AnyIn(SpecialCases[0].1, low)
    ensures !AnyIn(SpecialCases[1].1, low)
  {
    MissingChar(low, "electro-pop", 'e');
    MissingChar(low, "electro pop", 'e');
    NoSpecialHit0(low);
    MissingChar(low, "anime rap", 'a');
    NoSpecialHit1(low);
  }

  lemma JRockSMiss1(low: string)
    requires low == "j-rock"
    ensures !AnyIn(SpecialCases[2].1, low)
    ensures !AnyIn(SpecialCases[3].1, low)
    ensures !AnyIn(SpecialCases[4].1, low)
  {
    MissingChar(low, "electronica", 'e');
    MissingChar(low, "edm", 'e');
    NoSpecialHit2(low);
    MissingChar(low, "hardcore punk", 'h');
    NoSpecialHit3(low);
    MissingChar(low, "bass music", 'b');
    NoSpecialHit4(low);
  }

  lemma JRockSMiss2(low: string)
    requires low == "j-rock"
    ensures !AnyIn(SpecialCases[5].1, low)
  {
    MissingChar(low, "m\U{00FA}sica popular brasileira", 'm');
    NoSpecialHit5(low);
  }

  lemma JRockSScan(low: string)
    requires low == "j-rock"
    ensures FirstHit(SpecialCases, low) == None
  {
    JRockSMiss0(low);
    JRockSMiss1(low);
    JRockSMiss2(low);
    forall j | 0 <= j < |SpecialCases| ensures !AnyIn(SpecialCases[j].1, low) {
      if j == 0 { } else if j == 1 { } else if j == 2 { } else if j == 3 { } else if j == 4 { } else { }
    }
    NoHit(SpecialCases, low);
  }

  lemma JRockGMiss0(low: string)
    requires low == "j-rock"
    ensures !AnyIn(GenreMappings[0].1, low)
    ensures !AnyIn(GenreMappings[1].1, low)
    ensures !AnyIn(GenreMappings[2].1, low)
  {
    MissingChar(low, "brazilian", 'b');
    NoUmbrellaHit0(low);
    MissingChar(low, "metal", 'm');
    MissingChar(low, "djent", 'd');
    NoUmbrellaHit1(low);
    MissingChar(low, "emo", 'e');
    NoUmbrellaHit2(low);
  }

  lemma JRockGMiss1(low: string)
    requires low == "j-rock"
    ensures !AnyIn(GenreMappings[3].1, low)
    ensures !AnyIn(GenreMappings[4].1, low)
  {
    MissingChar(low, "rap", 'a');
    MissingChar(low, "hip hop", 'h');
    MissingChar(low, "hip-hop", 'h');
    NoUmbrellaHit3(low);
    MissingChar(low, "folk", 'f');
    NoUmbrellaHit4(low);
  }

  lemma JRockGMiss2(low: string)
    requires low == "j-rock"
    ensures !AnyIn(GenreMappings[5].1, low)
    ensures !AnyIn(GenreMappings[6].1, low)
  {
    MissingChar(low, "industrial", 'i');
    NoUmbrellaHit5(low);
    MissingChar(low, "alternative", 'a');
    MissingChar(low, "indie", 'i');
    MissingChar(low, "alt", 'a');
    NoUmbrellaHit6(low);
  }

  lemma JRockGScan(low: string)
    requires low == "j-rock"
    ensures FirstHit(GenreMappings, low) == Some(7)
  {
    JRockGMiss0(low);
    JRockGMiss1(low);
    JRockGMiss2(low);
    forall j | 0 <= j < 7 ensures !AnyIn(GenreMappings[j].1, low) {
      if j == 0 { } else if j == 1 { } else if j == 2 { } else if j == 3 { } else if j == 4 { } else if j == 5 { } else { }
    }
    ContainsAt(low, "rock", 2);
    assert "rock" in GenreMappings[7].1;
    FirstHitAt(GenreMappings, low, 7);
  }

  lemma RockTitleKey(s: string)
    requires s == "rock"
    ensures Title(s) == "Rock"
  {
  }

  lemma RockLabel()
    ensures UmbrellaLabel(7) == "Rock"
  {
    RockTitleKey(GenreMappings[7].0);
  }

  /** "rock" comes before the "Japanese Music" entry that lists "j-rock" itself. */
  lemma JRock(genre: string)
    requires genre == "j-rock"
    ensures Normalized(genre) == ["Rock"]
  {
    JRockNotSentinel(genre);
    JRockKeeps(genre);
    JRockDrop(genre);
    JRockStripped(DropMusicSuffix(genre));
    JRockStrippedLower(CleanGenre(genre));
    JRockSScan(Lower(CleanGenre(genre)));
    JRockGScan(Lower(CleanGenre(genre)));
    RockLabel();
    UmbrellaLabelKept(genre, 7);
  }

  lemma LowerMetalStripped(genre: string)
    requires genre == "metal"
    ensures Strip(genre) == "metal"
  {
    
  }

  lemma LowerMetalStrippedLower(s: string)
    requires s == "metal"
    ensures Lower(s) == "metal"
  {
  }

  lemma LowerMetalNotSentinel(genre: string)
    requires genre == "metal"
    ensures !IsSentinel(genre)
  {
    LowerMetalStripped(genre);
    LowerMetalStrippedLower(Strip(genre));
  }

  lemma LowerMetalKeeps(genre: string)
    requires genre == "metal"
    ensures !KeepsMusic(genre)
  {
    
  }

  lemma LowerMetalDrop(genre: string)
    requires genre == "metal"
    ensures DropMusicSuffix(genre) == "metal"
  {
    
  }

  lemma LowerMetalSMiss0(low: string)
    requires low == "metal"
    ensures !AnyIn(SpecialCases[0].1, low)
    ensures !AnyIn(SpecialCases[1].1, low)
  {
    MissingChar(low, "electro-pop", 'c');
    MissingChar(low, "electro pop", 'c');
    NoSpecialHit0(low);
    MissingChar(low, "anime rap", 'n');
    NoSpecialHit1(low);
  }

  lemma LowerMetalSMiss1(low: string)
    requires low == "metal"
    ensures !AnyIn(SpecialCases[2].1, low)
    ensures !AnyIn(SpecialCases[3].1, low)
    ensures !AnyIn(SpecialCases[4].1, low)
  {
    MissingChar(low, "electronica", 'c');
    MissingChar(low, "edm", 'd');
    NoSpecialHit2(low);
    MissingChar(low, "hardcore punk", 'h');
    NoSpecialHit3(low);
    MissingChar(low, "bass music", 'b');
    NoSpecialHit4(low);
  }

  lemma LowerMetalSMiss2(low: string)
    requires low == "metal"
    ensures !AnyIn(SpecialCases[5].1, low)
  {
    MissingChar(low, "m\U{00FA}sica popular brasileira", '\U{00FA}');
    NoSpecialHit5(low);
  }

  lemma LowerMetalSScan(low: string)
    requires low == "metal"
    ensures FirstHit(SpecialCases, low) == None
  {
    LowerMetalSMiss0(low);
    LowerMetalSMiss1(low);
    LowerMetalSMiss2(low);
    forall j | 0 <= j < |SpecialCases| ensures !AnyIn(SpecialCases[j].1, low) {
      if j == 0 { } else if j == 1 { } else if j == 2 { } else if j == 3 { } else if j == 4 { } else { }
    }
    NoHit(SpecialCases, low);
  }

  lemma LowerMetalGMiss0(low: string)
    requires low == "metal"
    ensures !AnyIn(GenreMappings[0].1, low)
  {
    MissingChar(low, "brazilian", 'b');
    NoUmbrellaHit0(low);
  }

  lemma LowerMetalGScan(low: string)
    requires low == "metal"
    ensures FirstHit(GenreMappings, low) == Some(1)
  {
    LowerMetalGMiss0(low);
    forall j | 0 <= j < 1 ensures !AnyIn(GenreMappings[j].1, low) {
      { }
    }
    ContainsAt(low, "metal", 0);
    assert "metal" in GenreMappings[1].1;
    FirstHitAt(GenreMappings, low, 1);
  }

  /** A label that differs from the tag only in case is kept. */
  lemma LowerMetal(genre: string)
    requires genre == "metal"
    ensures Normalized(genre) == ["Metal"]
  {
    LowerMetalNotSentinel(genre);
    LowerMetalKeeps(genre);
    LowerMetalDrop(genre);
    LowerMetalStripped(DropMusicSuffix(genre));
    LowerMetalStrippedLower(CleanGenre(genre));
    LowerMetalSScan(Lower(CleanGenre(genre)));
    LowerMetalGScan(Lower(CleanGenre(genre)));
    MetalLabel();
    UmbrellaLabelKept(genre, 1);
  }

  lemma MetalStripped(genre: string)
    requires genre == "Metal"
    ensures Strip(genre) == "Metal"
  {
    
  }

  lemma MetalStrippedLower(s: string)
    requires s == "Metal"
    ensures Lower(s) == "metal"
  {
  }

  lemma MetalNotSentinel(genre: string)
    requires genre == "Metal"
    ensures !IsSentinel(genre)
  {
    MetalStripped(genre);
    MetalStrippedLower(Strip(genre));
  }

  lemma MetalKeeps(genre: string)
    requires genre == "Metal"
    ensures !KeepsMusic(genre)
  {
    
  }

  lemma MetalDrop(genre: string)
    requires genre == "Metal"
    ensures DropMusicSuffix(genre) == "Metal"
  {
    
  }

  /** A label spelled exactly like the tag is removed. */
  lemma Metal(genre: string)
    requires genre == "Metal"
    ensures Normalized(genre) == []
  {
    MetalNotSentinel(genre);
    MetalKeeps(genre);
    MetalDrop(genre);
    MetalStripped(DropMusicSuffix(genre));
    MetalStrippedLower(CleanGenre(genre));
    LowerMetalSScan(Lower(CleanGenre(genre)));
    LowerMetalGScan(Lower(CleanGenre(genre)));
    MetalLabel();
    UmbrellaLabelDropped(genre, 1);
  }

  lemma RockStripped(genre: string)
    requires genre == "Rock"
    ensures Strip(genre) == "Rock"
  {
    
  }

  lemma RockStrippedLower(s: string)
    requires s == "Rock"
    ensures Lower(s) == "rock"
  {
  }

  lemma RockNotSentinel(genre: string)
    requires genre == "Rock"
    ensures !IsSentinel(genre)
  {
    RockStripped(genre);
    RockStrippedLower(Strip(genre));
  }

  lemma RockKeeps(genre: string)
    requires genre == "Rock"
    ensures !KeepsMusic(genre)
  {
    
  }

  lemma RockDrop(genre: string)
    requires genre == "Rock"
    ensures DropMusicSuffix(genre) == "Rock"
  {
    
  }

  lemma RockSMiss0(low: string)
    requires low == "rock"
    ensures !AnyIn(SpecialCases[0].1, low)
    ensures !AnyIn(SpecialCases[1].1, low)
  {
    MissingChar(low, "electro-pop", 'e');
    MissingChar(low, "electro pop", 'e');
    NoSpecialHit0(low);
    MissingChar(low, "anime rap", 'a');
    NoSpecialHit1(low);
  }

  lemma RockSMiss1(low: string)
    requires low == "rock"
    ensures !AnyIn(SpecialCases[2].1, low)
    ensures !AnyIn(SpecialCases[3].1, low)
    ensures !AnyIn(SpecialCases[4].1, low)
  {
    MissingChar(low, "electronica", 'e');
    MissingChar(low, "edm", 'e');
    NoSpecialHit2(low);
    MissingChar(low, "hardcore punk", 'h');
    NoSpecialHit3(low);
    MissingChar(low, "bass music", 'b');
    NoSpecialHit4(low);
  }

  lemma RockSMiss2(low: string)
    requires low == "rock"
    ensures !AnyIn(SpecialCases[5].1, low)
  {
    MissingChar(low, "m\U{00FA}sica popular brasileira", 'm');
    NoSpecialHit5(low);
  }

  lemma RockSScan(low: string)
    requires low == "rock"
    ensures FirstHit(SpecialCases, low) == None
  {
    RockSMiss0(low);
    RockSMiss1(low);
    RockSMiss2(low);
    forall j | 0 <= j < |SpecialCases| ensures !AnyIn(SpecialCases[j].1, low) {
      if j == 0 { } else if j == 1 { } else if j == 2 { } else if j == 3 { } else if j == 4 { } else { }
    }
    NoHit(SpecialCases, low);
  }

  lemma RockGMiss0(low: string)
    requires low == "rock"
    ensures !AnyIn(GenreMappings[0].1, low)
    ensures !AnyIn(GenreMappings[1].1, low)
    ensures !AnyIn(GenreMappings[2].1, low)
  {
    MissingChar(low, "brazilian", 'b');
    NoUmbrellaHit0(low);
    MissingChar(low, "metal", 'm');
    MissingChar(low, "djent", 'd');
    NoUmbrellaHit1(low);
    MissingChar(low, "emo", 'e');
    NoUmbrellaHit2(low);
  }

  lemma RockGMiss1(low: string)
    requires low == "rock"
    ensures !AnyIn(GenreMappings[3].1, low)
    ensures !AnyIn(GenreMappings[4].1, low)
  {
    MissingChar(low, "rap", 'a');
    MissingChar(low, "hip hop", 'h');
    MissingChar(low, "hip-hop", 'h');
    NoUmbrellaHit3(low);
    MissingChar(low, "folk", 'f');
    NoUmbrellaHit4(low);
  }

  lemma RockGMiss2(low: string)
    requires low == "rock"
    ensures !AnyIn(GenreMappings[5].1, low)
    ensures !AnyIn(GenreMappings[6].1, low)
  {
    MissingChar(low, "industrial", 'i');
    NoUmbrellaHit5(low);
    MissingChar(low, "alternative", 'a');
    MissingChar(low, "indie", 'i');
    MissingChar(low, "alt", 'a');
    NoUmbrellaHit6(low);
  }

  lemma RockGScan(low: string)
    requires low == "rock"
    ensures FirstHit(GenreMappings, low) == Some(7)
  {
    RockGMiss0(low);
    RockGMiss1(low);
    RockGMiss2(low);
    forall j | 0 <= j < 7 ensures !AnyIn(GenreMappings[j].1, low) {
      if j == 0 { } else if j == 1 { } else if j == 2 { } else if j == 3 { } else if j == 4 { } else if j == 5 { } else { }
    }
    ContainsAt(low, "rock", 0);
    assert "rock" in GenreMappings[7].1;
    FirstHitAt(GenreMappings, low, 7);
  }

  /** A label spelled exactly like the tag is removed. */
  lemma Rock(genre: string)
    requires genre == "Rock"
    ensures Normalized(genre) == []
  {
    RockNotSentinel(genre);
    RockKeeps(genre);
    RockDrop(genre);
    RockStripped(DropMusicSuffix(genre));
    RockStrippedLower(CleanGenre(genre));
    RockSScan(Lower(CleanGenre(genre)));
    RockGScan(Lower(CleanGenre(genre)));
    RockLabel();
    UmbrellaLabelDropped(genre, 7);
  }

  lemma BluesStripped(genre: string)
    requires genre == "Blues"
    ensures Strip(genre) == "Blues"
  {
    
  }

  lemma BluesStrippedLower(s: string)
    requires s == "Blues"
    ensures Lower(s) == "blues"
  {
  }

  lemma BluesNotSentinel(genre: string)
    requires genre == "Blues"
    ensures !IsSentinel(genre)
  {
    BluesStripped(genre);
    BluesStrippedLower(Strip(genre));
  }

  lemma BluesKeeps(genre: string)
    requires genre == "Blues"
    ensures !KeepsMusic(genre)
  {
    
  }

  lemma BluesDrop(genre: string)
    requires genre == "Blues"
    ensures DropMusicSuffix(genre) == "Blues"
  {
    
  }

  lemma BluesSMiss0(low: string)
    requires low == "blues"
    ensures !AnyIn(SpecialCases[0].1, low)
    ensures !AnyIn(SpecialCases[1].1, low)
  {
    MissingChar(low, "electro-pop", 'c');
    MissingChar(low, "electro pop", 'c');
    NoSpecialHit0(low);
    MissingChar(low, "anime rap", 'a');
    NoSpecialHit1(low);
  }

  lemma BluesSMiss1(low: string)
    requires low == "blues"
    ensures !AnyIn(SpecialCases[2].1, low)
    ensures !AnyIn(SpecialCases[3].1, low)
    ensures !AnyIn(SpecialCases[4].1, low)
  {
    MissingChar(low, "electronica", 'c');
    MissingChar(low, "edm", 'd');
    NoSpecialHit2(low);
    MissingChar(low, "hardcore punk", 'h');
    NoSpecialHit3(low);
    MissingChar(low, "bass music", 'a');
    NoSpecialHit4(low);
  }

  lemma BluesSMiss2(low: string)
    requires low == "blues"
    ensures !AnyIn(SpecialCases[5].1, low)
  {
    MissingChar(low, "m\U{00FA}sica popular brasileira", 'm');
    NoSpecialHit5(low);
  }

  lemma BluesSScan(low: string)
    requires low == "blues"
    ensures FirstHit(SpecialCases, low) == None
  {
    BluesSMiss0(low);
    BluesSMiss1(low);
    BluesSMiss2(low);
    forall j | 0 <= j < |SpecialCases| ensures !AnyIn(SpecialCases[j].1, low) {
      if j == 0 { } else if j == 1 { } else if j == 2 { } else if j == 3 { } else if j == 4 { } else { }
    }
    NoHit(SpecialCases, low);
  }

  lemma BluesGMiss0(low: string)
    requires low == "blues"
    ensures !AnyIn(GenreMappings[0].1, low)
    ensures !AnyIn(GenreMappings[1].1, low)
    ensures !AnyIn(GenreMappings[2].1, low)
  {
    MissingChar(low, "brazilian", 'r');
    NoUmbrellaHit0(low);
    MissingChar(low, "metal", 'm');
    MissingChar(low, "djent", 'd');
    NoUmbrellaHit1(low);
    MissingChar(low, "emo", 'm');
    NoUmbrellaHit2(low);
  }

  lemma BluesGMiss1(low: string)
    requires low == "blues"
    ensures !AnyIn(GenreMappings[3].1, low)
    ensures !AnyIn(GenreMappings[4].1, low)
  {
    MissingChar(low, "rap", 'r');
    MissingChar(low, "hip hop", 'h');
    MissingChar(low, "hip-hop", 'h');
    NoUmbrellaHit3(low);
    MissingChar(low, "folk", 'f');
    NoUmbrellaHit4(low);
  }

  lemma BluesGMiss2(low: string)
    requires low == "blues"
    ensures !AnyIn(GenreMappings[5].1, low)
    ensures !AnyIn(GenreMappings[6].1, low)
  {
    MissingChar(low, "industrial", 'i');
    NoUmbrellaHit5(low);
    MissingChar(low, "alternative", 'a');
    MissingChar(low, "indie", 'i');
    MissingChar(low, "alt", 'a');
    NoUmbrellaHit6(low);
  }

  lemma BluesGMiss3(low: string)
    requires low == "blues"
    ensures !AnyIn(GenreMappings[7].1, low)
  {
    MissingChar(low, "rock", 'r');
    MissingChar(low, "hardcore", 'h');
    MissingChar(low, "grunge", 'g');
    MissingChar(low, "metal", 'm');
    NoUmbrellaHit7(low);
  }

  lemma BluesGMiss4(low: string)
    requires low == "blues"
    ensures !AnyIn(GenreMappings[8].1, low)
    ensures !AnyIn(GenreMappings[9].1, low)
    ensures !AnyIn(GenreMappings[10].1, low)
    ensures !AnyIn(GenreMappings[11].1, low)
  {
    MissingChar(low, "punk", 'p');
    NoUmbrellaHit8(low);
    MissingChar(low, "glam", 'g');
    NoUmbrellaHit9(low);
    MissingChar(low, "country", 'c');
    NoUmbrellaHit10(low);
    MissingChar(low, "sertanejo", 'r');
    NoUmbrellaHit11(low);
  }

  lemma BluesGMiss5(low: string)
    requires low == "blues"
    ensures !AnyIn(GenreMappings[12].1, low)
  {
    MissingChar(low, "mpb", 'm');
    NoUmbrellaHit12(low);
  }

  lemma BluesGScan(low: string)
    requires low == "blues"
    ensures FirstHit(GenreMappings, low) == Some(13)
  {
    BluesGMiss0(low);
    BluesGMiss1(low);
    BluesGMiss2(low);
    BluesGMiss3(low);
    BluesGMiss4(low);
    BluesGMiss5(low);
    forall j | 0 <= j < 13 ensures !AnyIn(GenreMappings[j].1, low) {
      if j == 0 { } else if j == 1 { } else if j == 2 { } else if j == 3 { } else if j == 4 { } else if j == 5 { } else if j == 6 { } else if j == 7 { } else if j == 8 { } else if j == 9 { } else if j == 10 { } else if j == 11 { } else { }
    }
    ContainsAt(low, "blues", 0);
    assert "blues" in GenreMappings[13].1;
    FirstHitAt(GenreMappings, low, 13);
  }

  lemma BluesLabel()
    ensures UmbrellaLabel(13) == "Blues"
  {
  }

  /** The "(Rhythm and )Blues" entry answers "Blues", which is then removed. */
  lemma Blues(genre: string)
    requires genre == "Blues"
    ensures Normalized(genre) == []
  {
    BluesNotSentinel(genre);
    BluesKeeps(genre);
    BluesDrop(genre);
    BluesStripped(DropMusicSuffix(genre));
    BluesStrippedLower(CleanGenre(genre));
    BluesSScan(Lower(CleanGenre(genre)));
    BluesGScan(Lower(CleanGenre(genre)));
    BluesLabel();
    UmbrellaLabelDropped(genre, 13);
  }

  lemma BrazilianMusicStripped(genre: string)
    requires genre == "Brazilian Music"
    ensures Strip(genre) == "Brazilian Music"
  {
    
  }

  lemma BrazilianMusicStrippedLower(s: string)
    requires s == "Brazilian Music"
    ensures Lower(s) == "brazilian music"
  {
  }

  lemma BrazilianMusicNotSentinel(genre: string)
    requires genre == "Brazilian Music"
    ensures !IsSentinel(genre)
  {
    BrazilianMusicStripped(genre);
    BrazilianMusicStrippedLower(Strip(genre));
  }

  lemma BrazilianMusicKeeps(genre: string)
    requires genre == "Brazilian Music"
    ensures KeepsMusic(genre)
  {
    
  }

  lemma BrazilianMusicSMiss0(low: string)
    requires low == "brazilian music"
    ensures !AnyIn(SpecialCases[0].1, low)
    ensures !AnyIn(SpecialCases[1].1, low)
  {
    MissingChar(low, "electro-pop", 'e');
    MissingChar(low, "electro pop", 'e');
    NoSpecialHit0(low);
    MissingChar(low, "anime rap", 'e');
    NoSpecialHit1(low);
  }

  lemma BrazilianMusicSMiss1(low: string)
    requires low == "brazilian music"
    ensures !AnyIn(SpecialCases[2].1, low)
    ensures !AnyIn(SpecialCases[3].1, low)
    ensures !AnyIn(SpecialCases[4].1, low)
  {
    MissingChar(low, "electronica", 'e');
    MissingChar(low, "edm", 'e');
    NoSpecialHit2(low);
    MissingChar(low, "hardcore punk", 'h');
    NoSpecialHit3(low);
    MissingPair(low, "bass music", 0);
    NoSpecialHit4(low);
  }

  lemma BrazilianMusicSMiss2(low: string)
    requires low == "brazilian music"
    ensures !AnyIn(SpecialCases[5].1, low)
  {
    MissingChar(low, "m\U{00FA}sica popular brasileira", '\U{00FA}');
    NoSpecialHit5(low);
  }

  lemma BrazilianMusicSScan(low: string)
    requires low == "brazilian music"
    ensures FirstHit(SpecialCases, low) == None
  {
    BrazilianMusicSMiss0(low);
    BrazilianMusicSMiss1(low);
    BrazilianMusicSMiss2(low);
    forall j | 0 <= j < |SpecialCases| ensures !AnyIn(SpecialCases[j].1, low) {
      if j == 0 { } else if j == 1 { } else if j == 2 { } else if j == 3 { } else if j == 4 { } else { }
    }
    NoHit(SpecialCases, low);
  }

  lemma BrazilianMusicGScan(low: string)
    requires low == "brazilian music"
    ensures FirstHit(GenreMappings, low) == Some(0)
  {
    ContainsAt(low, "brazilian", 0);
    assert "brazilian" in GenreMappings[0].1;
    FirstHitAt(GenreMappings, low, 0);
  }

  lemma BrazilianMusicTitleKey(s: string)
    requires s == "brazilian music"
    ensures Title(s) == "Brazilian Music"
  {
    assert s == "brazilian" + " " + "music";
    TitleSpace("brazilian", "music");
    TitleLowerWord("brazilian");
    TitleLowerWord("music");
  }

  lemma BrazilianMusicLabel()
    ensures UmbrellaLabel(0) == "Brazilian Music"
  {
    BrazilianMusicTitleKey(GenreMappings[0].0);
  }

  /** The tag keeps its " music" and is removed as its own label. */
  lemma BrazilianMusic(genre: string)
    requires genre == "Brazilian Music"
    ensures Normalized(genre) == []
  {
    BrazilianMusicNotSentinel(genre);
    BrazilianMusicKeeps(genre);
    BrazilianMusicStrippedLower(CleanGenre(genre));
    BrazilianMusicSScan(Lower(CleanGenre(genre)));
    BrazilianMusicGScan(Lower(CleanGenre(genre)));
    BrazilianMusicLabel();
    UmbrellaLabelDropped(genre, 0);
  }

  lemma HardcoreStripped(genre: string)
    requires genre == "Hardcore"
    ensures Strip(genre) == "Hardcore"
  {
    
  }

  lemma HardcoreStrippedLower(s: string)
    requires s == "Hardcore"
    ensures Lower(s) == "hardcore"
  {
  }

  lemma HardcoreNotSentinel(genre: string)
    requires genre == "Hardcore"
    ensures !IsSentinel(genre)
  {
    HardcoreStripped(genre);
    HardcoreStrippedLower(Strip(genre));
  }

  lemma HardcoreKeeps(genre: string)
    requires genre == "Hardcore"
    ensures !KeepsMusic(genre)
  {
    
  }

  lemma HardcoreDrop(genre: string)
    requires genre == "Hardcore"
    ensures DropMusicSuffix(genre) == "Hardcore"
  {
    assert genre[|genre| - 6..] == "rdcore";
    assert Lower("rdcore")[0] != " music"[0];
  }

  lemma HardcoreSMiss0(low: string)
    requires low == "hardcore"
    ensures !AnyIn(SpecialCases[0].1, low)
    ensures !AnyIn(SpecialCases[1].1, low)
  {
    MissingChar(low, "electro-pop", 'l');
    MissingChar(low, "electro pop", 'l');
    NoSpecialHit0(low);
    MissingChar(low, "anime rap", 'n');
    NoSpecialHit1(low);
  }

  lemma HardcoreSMiss1(low: string)
    requires low == "hardcore"
    ensures !AnyIn(SpecialCases[2].1, low)
    ensures !AnyIn(SpecialCases[3].1, low)
    ensures !AnyIn(SpecialCases[4].1, low)
  {
    MissingChar(low, "electronica", 'l');
    MissingChar(low, "edm", 'm');
    NoSpecialHit2(low);
    MissingChar(low, "hardcore punk", ' ');
    NoSpecialHit3(low);
    MissingChar(low, "bass music", 'b');
    NoSpecialHit4(low);
  }

  lemma HardcoreSMiss2(low: string)
    requires low == "hardcore"
    ensures !AnyIn(SpecialCases[5].1, low)
  {
    MissingChar(low, "m\U{00FA}sica popular brasileira", 'm');
    NoSpecialHit5(low);
  }

  lemma HardcoreSScan(low: string)
    requires low == "hardcore"
    ensures FirstHit(SpecialCases, low) == None
  {
    HardcoreSMiss0(low);
    HardcoreSMiss1(low);
    HardcoreSMiss2(low);
    forall j | 0 <= j < |SpecialCases| ensures !AnyIn(SpecialCases[j].1, low) {
      if j == 0 { } else if j == 1 { } else if j == 2 { } else if j == 3 { } else if j == 4 { } else { }
    }
    NoHit(SpecialCases, low);
  }

  lemma HardcoreGMiss0(low: string)
    requires low == "hardcore"
    ensures !AnyIn(GenreMappings[0].1, low)
    ensures !AnyIn(GenreMappings[1].1, low)
    ensures !AnyIn(GenreMappings[2].1, low)
  {
    MissingChar(low, "brazilian", 'b');
    NoUmbrellaHit0(low);
    MissingChar(low, "metal", 'm');
    MissingChar(low, "djent", 'j');
    NoUmbrellaHit1(low);
    MissingChar(low, "emo", 'm');
    NoUmbrellaHit2(low);
  }

  lemma HardcoreGMiss1(low: string)
    requires low == "hardcore"
    ensures !AnyIn(GenreMappings[3].1, low)
    ensures !AnyIn(GenreMappings[4].1, low)
  {
    MissingChar(low, "rap", 'p');
    MissingChar(low, "hip hop", 'i');
    MissingChar(low, "hip-hop", 'i');
    NoUmbrellaHit3(low);
    MissingChar(low, "folk", 'f');
    NoUmbrellaHit4(low);
  }

  lemma HardcoreGMiss2(low: string)
    requires low == "hardcore"
    ensures !AnyIn(GenreMappings[5].1, low)
    ensures !AnyIn(GenreMappings[6].1, low)
  {
    MissingChar(low, "industrial", 'i');
    NoUmbrellaHit5(low);
    MissingChar(low, "alternative", 'l');
    MissingChar(low, "indie", 'i');
    MissingChar(low, "alt", 'l');
    NoUmbrellaHit6(low);
  }

  lemma HardcoreGScan(low: string)
    requires low == "hardcore"
    ensures FirstHit(GenreMappings, low) == Some(7)
  {
    HardcoreGMiss0(low);
    HardcoreGMiss1(low);
    HardcoreGMiss2(low);
    forall j | 0 <= j < 7 ensures !AnyIn(GenreMappings[j].1, low) {
      if j == 0 { } else if j == 1 { } else if j == 2 { } else if j == 3 { } else if j == 4 { } else if j == 5 { } else { }
    }
    ContainsAt(low, "hardcore", 0);
    assert "hardcore" in GenreMappings[7].1;
    FirstHitAt(GenreMappings, low, 7);
  }

  /** Normalizing a special-case label again moves it on to "Rock". */
  lemma Hardcore(genre: string)
    requires genre == "Hardcore"
    ensures Normalized(genre) == ["Rock"]
  {
    HardcoreNotSentinel(genre);
    HardcoreKeeps(genre);
    HardcoreDrop(genre);
    HardcoreStripped(DropMusicSuffix(genre));
    HardcoreStrippedLower(CleanGenre(genre));
    HardcoreSScan(Lower(CleanGenre(genre)));
    HardcoreGScan(Lower(CleanGenre(genre)));
    RockLabel();
    UmbrellaLabelKept(genre, 7);
  }

  lemma AnimeStripped(genre: string)
    requires genre == "Anime"
    ensures Strip(genre) == "Anime"
  {
    
  }

  lemma AnimeStrippedLower(s: string)
    requires s == "Anime"
    ensures Lower(s) == "anime"
  {
  }

  lemma AnimeNotSentinel(genre: string)
    requires genre == "Anime"
    ensures !IsSentinel(genre)
  {
    AnimeStripped(genre);
    AnimeStrippedLower(Strip(genre));
  }

  lemma AnimeKeeps(genre: string)
    requires genre == "Anime"
    ensures !KeepsMusic(genre)
  {
    
  }

  lemma AnimeDrop(genre: string)
    requires genre == "Anime"
    ensures DropMusicSuffix(genre) == "Anime"
  {
    
  }

  lemma AnimeSMiss0(low: string)
    requires low == "anime"
    ensures !AnyIn(SpecialCases[0].1, low)
    ensures !AnyIn(SpecialCases[1].1, low)
  {
    MissingChar(low, "electro-pop", 'l');
    MissingChar(low, "electro pop", 'l');
    NoSpecialHit0(low);
    MissingChar(low, "anime rap", ' ');
    NoSpecialHit1(low);
  }

  lemma AnimeSMiss1(low: string)
    requires low == "anime"
    ensures !AnyIn(SpecialCases[2].1, low)
    ensures !AnyIn(SpecialCases[3].1, low)
    ensures !AnyIn(SpecialCases[4].1, low)
  {
    MissingChar(low, "electronica", 'l');
    MissingChar(low, "edm", 'd');
    NoSpecialHit2(low);
    MissingChar(low, "hardcore punk", 'h');
    NoSpecialHit3(low);
    MissingChar(low, "bass music", 'b');
    NoSpecialHit4(low);
  }

  lemma AnimeSMiss2(low: string)
    requires low == "anime"
    ensures !AnyIn(SpecialCases[5].1, low)
  {
    MissingChar(low, "m\U{00FA}sica popular brasileira", '\U{00FA}');
    NoSpecialHit5(low);
  }

  lemma AnimeSScan(low: string)
    requires low == "anime"
    ensures FirstHit(SpecialCases, low) == None
  {
    AnimeSMiss0(low);
    AnimeSMiss1(low);
    AnimeSMiss2(low);
    forall j | 0 <= j < |SpecialCases| ensures !AnyIn(SpecialCases[j].1, low) {
      if j == 0 { } else if j == 1 { } else if j == 2 { } else if j == 3 { } else if j == 4 { } else { }
    }
    NoHit(SpecialCases, low);
  }

  lemma AnimeGMiss0(low: string)
    requires low == "anime"
    ensures !AnyIn(GenreMappings[0].1, low)
    ensures !AnyIn(GenreMappings[1].1, low)
    ensures !AnyIn(GenreMappings[2].1, low)
  {
    MissingChar(low, "brazilian", 'b');
    NoUmbrellaHit0(low);
    MissingChar(low, "metal", 't');
    MissingChar(low, "djent", 'd');
    NoUmbrellaHit1(low);
    MissingChar(low, "emo", 'o');
    NoUmbrellaHit2(low);
  }

  lemma AnimeGMiss1(low: string)
    requires low == "anime"
    ensures !AnyIn(GenreMappings[3].1, low)
    ensures !AnyIn(GenreMappings[4].1, low)
  {
    MissingChar(low, "rap", 'r');
    MissingChar(low, "hip hop", 'h');
    MissingChar(low, "hip-hop", 'h');
    NoUmbrellaHit3(low);
    MissingChar(low, "folk", 'f');
    NoUmbrellaHit4(low);
  }

  lemma AnimeGMiss2(low: string)
    requires low == "anime"
    ensures !AnyIn(GenreMappings[5].1, low)
    ensures !AnyIn(GenreMappings[6].1, low)
  {
    MissingChar(low, "industrial", 'd');
    NoUmbrellaHit5(low);
    MissingChar(low, "alternative", 'l');
    MissingChar(low, "indie", 'd');
    MissingChar(low, "alt", 'l');
    NoUmbrellaHit6(low);
  }

  lemma AnimeGMiss3(low: string)
    requires low == "anime"
    ensures !AnyIn(GenreMappings[7].1, low)
  {
    MissingChar(low, "rock", 'r');
    MissingChar(low, "hardcore", 'h');
    MissingChar(low, "grunge", 'g');
    MissingChar(low, "metal", 't');
    NoUmbrellaHit7(low);
  }

  lemma AnimeGMiss4(low: string)
    requires low == "anime"
    ensures !AnyIn(GenreMappings[8].1, low)
    ensures !AnyIn(GenreMappings[9].1, low)
    ensures !AnyIn(GenreMappings[10].1, low)
    ensures !AnyIn(GenreMappings[11].1, low)
  {
    MissingChar(low, "punk", 'p');
    NoUmbrellaHit8(low);
    MissingChar(low, "glam", 'g');
    NoUmbrellaHit9(low);
    MissingChar(low, "country", 'c');
    NoUmbrellaHit10(low);
    MissingChar(low, "sertanejo", 's');
    NoUmbrellaHit11(low);
  }

  lemma AnimeGMiss5(low: string)
    requires low == "anime"
    ensures !AnyIn(GenreMappings[12].1, low)
    ensures !AnyIn(GenreMappings[13].1, low)
  {
    MissingChar(low, "mpb", 'p');
    NoUmbrellaHit12(low);
    MissingChar(low, "blues", 'b');
    MissingChar(low, "r&b", 'r');
    MissingChar(low, "rhythm and blues", 'r');
    NoUmbrellaHit13(low);
  }

  lemma AnimeGScan(low: string)
    requires low == "anime"
    ensures FirstHit(GenreMappings, low) == Some(14)
  {
    AnimeGMiss0(low);
    AnimeGMiss1(low);
    AnimeGMiss2(low);
    AnimeGMiss3(low);
    AnimeGMiss4(low);
    AnimeGMiss5(low);
    forall j | 0 <= j < 14 ensures !AnyIn(GenreMappings[j].1, low) {
      if j == 0 { } else if j == 1 { } else if j == 2 { } else if j == 3 { } else if j == 4 { } else if j == 5 { } else if j == 6 { } else if j == 7 { } else if j == 8 { } else if j == 9 { } else if j == 10 { } else if j == 11 { } else if j == 12 { } else { }
    }
    ContainsAt(low, "anime", 0);
    assert "anime" in GenreMappings[14].1;
    FirstHitAt(GenreMappings, low, 14);
  }

  lemma AnimeTitleKey(s: string)
    requires s == "Japanese Music"
    ensures Title(s) == "Japanese Music"
  {
    assert s == "Japanese" + " " + "Music";
    TitleSpace("Japanese", "Music");
    TitleCapitalWord("Japanese");
    TitleCapitalWord("Music");
  }

  lemma AnimeLabel()
    ensures UmbrellaLabel(14) == "Japanese Music"
  {
    AnimeTitleKey(GenreMappings[14].0);
  }

  /** Normalizing a special-case label again moves it on to "Japanese Music". */
  lemma Anime(genre: string)
    requires genre == "Anime"
    ensures Normalized(genre) == ["Japanese Music"]
  {
    AnimeNotSentinel(genre);
    AnimeKeeps(genre);
    AnimeDrop(genre);
    AnimeStripped(DropMusicSuffix(genre));
    AnimeStrippedLower(CleanGenre(genre));
    AnimeSScan(Lower(CleanGenre(genre)));
    AnimeGScan(Lower(CleanGenre(genre)));
    AnimeLabel();
    UmbrellaLabelKept(genre, 14);
  }

  lemma GenresStripped(genre: string)
    requires genre == "Genres"
    ensures Strip(genre) == "Genres"
  {
    
  }

  lemma GenresStrippedLower(s: string)
    requires s == "Genres"
    ensures Lower(s) == "genres"
  {
  }

  /** A sentinel tag is dropped whatever its case. */
  lemma Genres(genre: string)
    requires genre == "Genres"
    ensures Normalized(genre) == []
  {
    GenresStripped(genre);
    GenresStrippedLower(Strip(genre));
  }
}
