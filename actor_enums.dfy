/**
 * The enums of an actor's profile and filmography, and the lookups that
 * turn the display names the client sends back into constants.
 * FilmographyType and RoleType never fail: a display name is tried first,
 * then the constant's own name (upper-cased), and anything else becomes
 * OTHER. ActorCategory and Gender answer null (None) for an unknown name.
 */
module ActorEnums {
  import opened Common
  import opened JavaLang

  // ---------------------------------------------------------------------
  // FilmographyType
  // ---------------------------------------------------------------------

  datatype FilmographyType = Drama | Movie | Musical | Theater | Cf | MusicVideo | WebDrama | Ott | OtherWork

  const FilmographyValues: seq<FilmographyType> := [Drama, Movie, Musical, Theater, Cf, MusicVideo, WebDrama, Ott, OtherWork]

  function FilmographyDisplayName(t: FilmographyType): string
  {
    match t
    case Drama => "드라마"
    case Movie => "영화"
    case Musical => "뮤지컬"
    case Theater => "연극"
    case Cf => "광고"
    case MusicVideo => "뮤직비디오"
    case WebDrama => "웹드라마"
    case Ott => "OTT"
    case OtherWork => "기타"
  }

  /** `name()`: the constant's identifier, which `valueOf` matches. */
  function FilmographyConstantName(t: FilmographyType): string
  {
    match t
    case Drama => "DRAMA"
    case Movie => "MOVIE"
    case Musical => "MUSICAL"
    case Theater => "THEATER"
    case Cf => "CF"
    case MusicVideo => "MUSIC_VIDEO"
    case WebDrama => "WEB_DRAMA"
    case Ott => "OTT"
    case OtherWork => "OTHER"
  }

  /** `ordinal()`: the type's position in `values()`. */
  function FilmographyIndex(t: FilmographyType): (i: nat)
    ensures i < |FilmographyValues| && FilmographyValues[i] == t
  {
    match t
    case Drama => 0
    case Movie => 1
    case Musical => 2
    case Theater => 3
    case Cf => 4
    case MusicVideo => 5
    case WebDrama => 6
    case Ott => 7
    case OtherWork => 8
  }

  lemma FilmographyDisplayNamesDistinct(a: FilmographyType, b: FilmographyType)
    ensures FilmographyDisplayName(a) == FilmographyDisplayName(b) ==> a == b
  {
  }

  lemma FilmographyConstantNamesDistinct(a: FilmographyType, b: FilmographyType)
    ensures FilmographyConstantName(a) == FilmographyConstantName(b) ==> a == b
  {
  }

  /**
   * `FilmographyType.fromDisplayName` on a non-null name: the type with that
   * display name; failing that, the type whose constant name is the
   * upper-cased input (`valueOf`); failing that, OTHER.
   */
  function FilmographyFromDisplayName(name: string): (r: FilmographyType)
    ensures forall t :: FilmographyDisplayName(t) == name ==> r == t
    ensures (forall t :: FilmographyDisplayName(t) != name) ==>
              forall t :: FilmographyConstantName(t) == ToUpperCase(name) ==> r == t
    ensures (forall t :: FilmographyDisplayName(t) != name && FilmographyConstantName(t) != ToUpperCase(name)) ==>
              r == OtherWork
  {
    match FirstWithKey(FilmographyValues, FilmographyDisplayName, name)
    case Some(t) =>
      assert forall u :: FilmographyDisplayName(u) == name ==> t == u by {
        forall u | FilmographyDisplayName(u) == name ensures t == u {
          FilmographyDisplayNamesDistinct(t, u);
        }
      }
      t
    case None =>
      assert forall u :: FilmographyDisplayName(u) != name by {
        forall u ensures FilmographyDisplayName(u) != name {
          assert FilmographyValues[FilmographyIndex(u)] == u;
        }
      }
      match FirstWithKey(FilmographyValues, FilmographyConstantName, ToUpperCase(name))
      case Some(t) =>
        assert forall u :: FilmographyConstantName(u) == ToUpperCase(name) ==> t == u by {
          forall u | FilmographyConstantName(u) == ToUpperCase(name) ensures t == u {
            FilmographyConstantNamesDistinct(t, u);
          }
        }
        t
      case None =>
        assert forall u :: FilmographyConstantName(u) != ToUpperCase(name) by {
          forall u ensures FilmographyConstantName(u) != ToUpperCase(name) {
            assert FilmographyValues[FilmographyIndex(u)] == u;
          }
        }
        OtherWork
  }

  /** Every type is found by its display name (the name the API writes out). */
  lemma FilmographyRoundTrip(t: FilmographyType)
    ensures FilmographyFromDisplayName(FilmographyDisplayName(t)) == t
  {
  }

  /**
   * The constant's identifier is accepted too, in any letter case: "MOVIE",
   * "movie" and "ott" all find their constant.
   */
  lemma FilmographyByConstantName(t: FilmographyType)
    ensures FilmographyFromDisplayName(FilmographyConstantName(t)) == t
    ensures FilmographyFromDisplayName(ToLowerCase(FilmographyConstantName(t))) == t
  {
    var n := FilmographyConstantName(t);
    UpperCaseFixed(n);
    LowerCaseEqualsIgnoringCase(n);
    var lower := ToLowerCase(n);
    assert ToUpperCase(lower) == n;
    if t != Ott {
      // No display name is spelled like an identifier: they start with a Hangul syllable.
      forall u ensures FilmographyDisplayName(u) != n && FilmographyDisplayName(u) != lower {
        if u == Ott {
          assert 'a' <= lower[0] <= 'z';
        } else {
          assert FilmographyDisplayName(u)[0] > 'z';
        }
      }
    } else {
      forall u ensures FilmographyDisplayName(u) != lower {
        assert lower[0] == 'o';
        assert FilmographyDisplayName(u)[0] != 'o';
      }
    }
  }

  /** A name that is neither a display name nor an identifier is read as OTHER. */
  lemma FilmographyUnknownIsOther()
    ensures FilmographyFromDisplayName("시트콤") == OtherWork
    ensures FilmographyFromDisplayName("") == OtherWork
  {
    forall t ensures FilmographyDisplayName(t) != "시트콤" && FilmographyConstantName(t) != ToUpperCase("시트콤") {
      assert ToUpperCase("시트콤")[0] == '시';
    }
  }

  // ---------------------------------------------------------------------
  // RoleType
  // ---------------------------------------------------------------------

  datatype RoleType = Lead | Supporting | Minor | Cameo | Extra | Voice | OtherRole

  const RoleValues: seq<RoleType> := [Lead, Supporting, Minor, Cameo, Extra, Voice, OtherRole]

  function RoleDisplayName(t: RoleType): string
  {
    match t
    case Lead => "주연"
    case Supporting => "조연"
    case Minor => "단역"
    case Cameo => "특별출연"
    case Extra => "엑스트라"
    case Voice => "성우"
    case OtherRole => "기타"
  }

  /** `name()`: the constant's identifier, which `valueOf` matches. */
  function RoleConstantName(t: RoleType): string
  {
    match t
    case Lead => "LEAD"
    case Supporting => "SUPPORTING"
    case Minor => "MINOR"
    case Cameo => "CAMEO"
    case Extra => "EXTRA"
    case Voice => "VOICE"
    case OtherRole => "OTHER"
  }

  /** `ordinal()`: the role type's position in `values()`. */
  function RoleIndex(t: RoleType): (i: nat)
    ensures i < |RoleValues| && RoleValues[i] == t
  {
    match t
    case Lead => 0
    case Supporting => 1
    case Minor => 2
    case Cameo => 3
    case Extra => 4
    case Voice => 5
    case OtherRole => 6
  }

  lemma RoleDisplayNamesDistinct(a: RoleType, b: RoleType)
    ensures RoleDisplayName(a) == RoleDisplayName(b) ==> a == b
  {
  }

  lemma RoleConstantNamesDistinct(a: RoleType, b: RoleType)
    ensures RoleConstantName(a) == RoleConstantName(b) ==> a == b
  {
  }

  /**
   * `RoleType.fromDisplayName` on a non-null name: display name first, then
   * the upper-cased identifier, then OTHER.
   */
  function RoleFromDisplayName(name: string): (r: RoleType)
    ensures forall t :: RoleDisplayName(t) == name ==> r == t
    ensures (forall t :: RoleDisplayName(t) != name) ==>
              forall t :: RoleConstantName(t) == ToUpperCase(name) ==> r == t
    ensures (forall t :: RoleDisplayName(t) != name && RoleConstantName(t) != ToUpperCase(name)) ==>
              r == OtherRole
  {
    match FirstWithKey(RoleValues, RoleDisplayName, name)
    case Some(t) =>
      assert forall u :: RoleDisplayName(u) == name ==> t == u by {
        forall u | RoleDisplayName(u) == name ensures t == u {
          RoleDisplayNamesDistinct(t, u);
        }
      }
      t
    case None =>
      assert forall u :: RoleDisplayName(u) != name by {
        forall u ensures RoleDisplayName(u) != name {
          assert RoleValues[RoleIndex(u)] == u;
        }
      }
      match FirstWithKey(RoleValues, RoleConstantName, ToUpperCase(name))
      case Some(t) =>
        assert forall u :: RoleConstantName(u) == ToUpperCase(name) ==> t == u by {
          forall u | RoleConstantName(u) == ToUpperCase(name) ensures t == u {
            RoleConstantNamesDistinct(t, u);
          }
        }
        t
      case None =>
        assert forall u :: RoleConstantName(u) != ToUpperCase(name) by {
          forall u ensures RoleConstantName(u) != ToUpperCase(name) {
            assert RoleValues[RoleIndex(u)] == u;
          }
        }
        OtherRole
  }

  /** Every role type is found by its display name. */
  lemma RoleRoundTrip(t: RoleType)
    ensures RoleFromDisplayName(RoleDisplayName(t)) == t
  {
  }

  /** The identifier is accepted in any letter case: "LEAD" and "lead" both give LEAD. */
  lemma RoleByConstantName(t: RoleType)
    ensures RoleFromDisplayName(RoleConstantName(t)) == t
    ensures RoleFromDisplayName(ToLowerCase(RoleConstantName(t))) == t
  {
    var n := RoleConstantName(t);
    UpperCaseFixed(n);
    LowerCaseEqualsIgnoringCase(n);
    var lower := ToLowerCase(n);
    assert ToUpperCase(lower) == n;
    forall u ensures RoleDisplayName(u) != n && RoleDisplayName(u) != lower {
      assert RoleDisplayName(u)[0] > 'z';
      assert n[0] <= 'Z' && lower[0] <= 'z';
    }
  }

  // ---------------------------------------------------------------------
  // ActorCategory and Gender
  // ---------------------------------------------------------------------

  datatype ActorCategory = ActorKind | ModelKind

  const CategoryValues: seq<ActorCategory> := [ActorKind, ModelKind]

  function CategoryDisplayName(c: ActorCategory): string
  {
    match c
    case ActorKind => "배우"
    case ModelKind => "모델"
  }

  /** `ActorCategory.fromDisplayName`: the category with that display name, None (null) for any other. */
  function CategoryFromDisplayName(name: string): (r: Option<ActorCategory>)
    ensures r.Some? ==> CategoryDisplayName(r.value) == name
    ensures r.None? <==> forall c :: CategoryDisplayName(c) != name
  {
    var r := FirstWithKey(CategoryValues, CategoryDisplayName, name);
    assert r.None? ==> forall c :: CategoryDisplayName(c) != name by {
      if r.None? {
        forall c ensures CategoryDisplayName(c) != name {
          assert c == CategoryValues[if c == ActorKind then 0 else 1];
        }
      }
    }
    r
  }

  /** Every category is found by its display name. */
  lemma CategoryRoundTrip(c: ActorCategory)
    ensures CategoryFromDisplayName(CategoryDisplayName(c)) == Some(c)
  {
  }

  datatype Gender = Male | Female

  const GenderValues: seq<Gender> := [Male, Female]

  function GenderDisplayName(g: Gender): string
  {
    match g
    case Male => "남자"
    case Female => "여자"
  }

  /** `Gender.fromDisplayName`: the gender with that display name, None (null) for any other. */
  function GenderFromDisplayName(name: string): (r: Option<Gender>)
    ensures r.Some? ==> GenderDisplayName(r.value) == name
    ensures r.None? <==> forall g :: GenderDisplayName(g) != name
  {
    var r := FirstWithKey(GenderValues, GenderDisplayName, name);
    assert r.None? ==> forall g :: GenderDisplayName(g) != name by {
      if r.None? {
        forall g ensures GenderDisplayName(g) != name {
          assert g == GenderValues[if g == Male then 0 else 1];
        }
      }
    }
    r
  }

  /** Every gender is found by its display name. */
  lemma GenderRoundTrip(g: Gender)
    ensures GenderFromDisplayName(GenderDisplayName(g)) == Some(g)
  {
  }

  /** Unlike the filmography lookups these do not accept identifiers: "MALE" is unknown. */
  lemma IdentifiersRejected()
    ensures GenderFromDisplayName("MALE").None?
    ensures CategoryFromDisplayName("ACTOR").None?
  {
  }
}
