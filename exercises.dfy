/** The fixed exercise catalogue and its two queries. */
module Exercises {
  import opened Types

  const KegelExercises: seq<Exercise> := [
    Exercise("1", "Contração Básica",
      "Contraia os músculos do assoalho pélvico por 3 segundos, depois relaxe por 3 segundos.",
      10, 10, 10, Beginner, "Básico"),
    Exercise("2", "Contração Prolongada",
      "Contraia os músculos por 5-10 segundos, mantendo a respiração normal.",
      15, 8, 15, Intermediate, "Intermediário"),
    Exercise("3", "Contrações Rápidas",
      "Contrações rápidas de 1 segundo seguidas de relaxamento de 1 segundo.",
      20, 15, 10, Advanced, "Avançado"),
    Exercise("4", "Elevator Kegel",
      "Contraia gradualmente, como se estivesse subindo andares de um prédio.",
      25, 6, 20, Advanced, "Avançado"),
    Exercise("5", "Contração Lenta",
      "Contraia lentamente e mantenha por 10 segundos antes de relaxar.",
      12, 10, 12, Intermediate, "Intermediário")
  ]

  /** The filter of one entry keeps it exactly when it has the level. */
  function Kept(e: Exercise, level: Level): seq<Exercise>
  {
    if e.level == level then [e] else []
  }

  /** The entries of `s` whose level is `level`, in the order of `s` (`Array.prototype.filter`). */
  function FilterLevel(s: seq<Exercise>, level: Level): (r: seq<Exercise>)
    ensures |r| <= |s|
    ensures forall e :: e in r <==> e in s && e.level == level
  {
    if s == [] then []
    else Kept(s[0], level) + FilterLevel(s[1..], level)
  }

  /** Filtering distributes over concatenation, so it keeps the relative order of the entries it keeps. */
  lemma {:induction false} FilterLevelConcat(a: seq<Exercise>, b: seq<Exercise>, level: Level)
    ensures FilterLevel(a + b, level) == FilterLevel(a, level) + FilterLevel(b, level)
  {
    if a == [] {
      assert a + b == b;
    } else {
      assert (a + b)[0] == a[0];
      assert (a + b)[1..] == a[1..] + b;
      FilterLevelConcat(a[1..], b, level);
    }
  }

  /** The three level filters partition any list of exercises. */
  lemma {:induction false} FilterLevelPartition(s: seq<Exercise>)
    ensures |FilterLevel(s, Beginner)| + |FilterLevel(s, Intermediate)| + |FilterLevel(s, Advanced)| == |s|
  {
    if s != [] {
      FilterLevelPartition(s[1..]);
    }
  }

  /** The first entry of `s` whose id is `id`, or none (`Array.prototype.find`). */
  function FindById(s: seq<Exercise>, id: string): (r: Option<Exercise>)
    ensures r.None? <==> forall i :: 0 <= i < |s| ==> s[i].id != id
    ensures r.Some? ==> exists i :: 0 <= i < |s| && s[i] == r.value && s[i].id == id &&
                                    forall j :: 0 <= j < i ==> s[j].id != id
  {
    if s == [] then None
    else if s[0].id == id then Some(s[0])
    else
      var r := FindById(s[1..], id);
      assert r.Some? ==> exists i :: 1 <= i < |s| && s[i] == r.value && s[i].id == id &&
                                     forall j :: 1 <= j < i ==> s[j].id != id by {
        if r.Some? {
          var k :| 0 <= k < |s[1..]| && s[1..][k] == r.value && s[1..][k].id == id &&
                   forall j :: 0 <= j < k ==> s[1..][j].id != id;
          assert s[k + 1] == r.value;
          assert forall j :: 1 <= j < k + 1 ==> s[j] == s[1..][j - 1];
        }
      }
      r
  }

  /** All ids of `s` differ. */
  predicate DistinctIds(s: seq<Exercise>)
  {
    forall i, j :: 0 <= i < j < |s| ==> s[i].id != s[j].id
  }

  /** With distinct ids, looking an entry up by its own id finds that entry. */
  lemma FindByOwnId(s: seq<Exercise>, i: nat)
    requires DistinctIds(s)
    requires i < |s|
    ensures FindById(s, s[i].id) == Some(s[i])
  {
  }

  /** `getExercisesByLevel`: exactly the catalogue entries of the given level, in catalogue order (see `CatalogueLevelOrder`). */
  function ExercisesByLevel(level: Level): (r: seq<Exercise>)
    ensures forall e :: e in r <==> e in KegelExercises && e.level == level
  {
    FilterLevel(KegelExercises, level)
  }

  /** `getExerciseById`: the first catalogue entry with that id, or none. */
  function ExerciseById(id: string): (r: Option<Exercise>)
    ensures r.None? <==> forall e :: e in KegelExercises ==> e.id != id
    ensures r.Some? ==> r.value in KegelExercises && r.value.id == id
  {
    FindById(KegelExercises, id)
  }

  /** The filter of a non-empty list: the first entry if kept, then the filter of the rest. */
  lemma FilterLevelCons(s: seq<Exercise>, level: Level)
    requires s != []
    ensures FilterLevel(s, level) == Kept(s[0], level) + FilterLevel(s[1..], level)
  {
  }

  /** The levels of the catalogue entries, in order. */
  predicate CatalogueShape(s: seq<Exercise>)
  {
    |s| == 5 &&
    s[0].level == Beginner && s[1].level == Intermediate && s[2].level == Advanced &&
    s[3].level == Advanced && s[4].level == Intermediate
  }

  /** The filter of a five-entry list, one entry at a time. */
  lemma FilterLevelFive(s: seq<Exercise>, level: Level)
    requires |s| == 5
    ensures FilterLevel(s, level) == Kept(s[0], level) + FilterLevel(s[1..], level)
    ensures FilterLevel(s[1..], level) == Kept(s[1], level) + FilterLevel(s[2..], level)
    ensures FilterLevel(s[2..], level) == Kept(s[2], level) + FilterLevel(s[3..], level)
    ensures FilterLevel(s[3..], level) == Kept(s[3], level) + FilterLevel(s[4..], level)
    ensures FilterLevel(s[4..], level) == Kept(s[4], level)
  {
    FilterLevelCons(s, level);
    FilterLevelCons(s[1..], level);
    assert s[1..][1..] == s[2..];
    FilterLevelCons(s[2..], level);
    assert s[2..][1..] == s[3..];
    FilterLevelCons(s[3..], level);
    assert s[3..][1..] == s[4..];
    FilterLevelCons(s[4..], level);
    assert s[4..][1..] == [];
  }

  /** In a list of the catalogue's shape, each level's filter keeps its entries in order. */
  lemma FilterCatalogueShape(s: seq<Exercise>)
    requires CatalogueShape(s)
    ensures FilterLevel(s, Beginner) == [s[0]]
    ensures FilterLevel(s, Intermediate) == [s[1], s[4]]
    ensures FilterLevel(s, Advanced) == [s[2], s[3]]
  {
    FilterLevelFive(s, Beginner);
    FilterLevelFive(s, Intermediate);
    FilterLevelFive(s, Advanced);
  }

  /** Each level's query returns its catalogue entries in catalogue order. */
  lemma CatalogueLevelOrder()
    ensures ExercisesByLevel(Beginner) == [KegelExercises[0]]
    ensures ExercisesByLevel(Intermediate) == [KegelExercises[1], KegelExercises[4]]
    ensures ExercisesByLevel(Advanced) == [KegelExercises[2], KegelExercises[3]]
  {
    assert CatalogueShape(KegelExercises);
    FilterCatalogueShape(KegelExercises);
  }

  /** One beginner, two intermediate and two advanced exercises, five in all. */
  lemma CatalogueLevelSizes()
    ensures |ExercisesByLevel(Beginner)| == 1
    ensures |ExercisesByLevel(Intermediate)| == 2
    ensures |ExercisesByLevel(Advanced)| == 2
    ensures |ExercisesByLevel(Beginner)| + |ExercisesByLevel(Intermediate)| + |ExercisesByLevel(Advanced)|
            == |KegelExercises| == 5
  {
    FilterLevelPartition(KegelExercises);
  }

  /** The catalogue ids, in order. */
  lemma CatalogueIds()
    ensures |KegelExercises| == 5
    ensures KegelExercises[0].id == "1" && KegelExercises[1].id == "2" && KegelExercises[2].id == "3"
    ensures KegelExercises[3].id == "4" && KegelExercises[4].id == "5"
  {
  }

  /** The catalogue ids "1" to "5" are distinct. */
  lemma CatalogueDistinct()
    ensures DistinctIds(KegelExercises)
  {
    CatalogueIds();
  }

  /** Every catalogue entry is found by its own id. */
  lemma CatalogueLookup()
    ensures forall e :: e in KegelExercises ==> ExerciseById(e.id) == Some(e)
  {
    CatalogueDistinct();
    forall e | e in KegelExercises ensures ExerciseById(e.id) == Some(e) {
      var i :| 0 <= i < |KegelExercises| && KegelExercises[i] == e;
      FindByOwnId(KegelExercises, i);
    }
  }

  /** No catalogue entry has id "6". */
  lemma CatalogueNoSix()
    ensures ExerciseById("6").None?
  {
    CatalogueIds();
  }
}
