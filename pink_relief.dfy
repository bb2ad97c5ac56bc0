/** The symptom tracker of the cycle page. */
module PinkRelief {
  import opened Seqs

  /** `toggleSymptom`: removes every occurrence of a listed symptom, or appends an unlisted one. */
  function ToggleSymptom(symptoms: seq<string>, symptom: string): (r: seq<string>)
    ensures symptom in r <==> symptom !in symptoms
    ensures forall s :: s != symptom ==> (s in r <==> s in symptoms)
    ensures symptom !in symptoms ==> |r| == |symptoms| + 1 && r[..|symptoms|] == symptoms
  {
    if symptom in symptoms then RemoveAll(symptoms, symptom) else symptoms + [symptom]
  }

  /** Toggling an unlisted symptom twice gives back the original list. */
  lemma ToggleTwiceRestores(symptoms: seq<string>, symptom: string)
    requires symptom !in symptoms
    ensures ToggleSymptom(ToggleSymptom(symptoms, symptom), symptom) == symptoms
  {
    RemoveAllAppend(symptoms, [symptom], symptom);
  }

  lemma {:induction false} RemoveAllKeepsNoDuplicates<T(!new)>(s: seq<T>, x: T)
    requires NoDuplicates(s)
    ensures NoDuplicates(RemoveAll(s, x))
  {
    if |s| > 0 {
      var init := s[..|s| - 1];
      assert NoDuplicates(init);
      RemoveAllKeepsNoDuplicates(init, x);
      assert s[|s| - 1] !in init;
    }
  }

  /** Toggling never introduces a duplicate entry. */
  lemma ToggleKeepsNoDuplicates(symptoms: seq<string>, symptom: string)
    requires NoDuplicates(symptoms)
    ensures NoDuplicates(ToggleSymptom(symptoms, symptom))
  {
    if symptom in symptoms {
      RemoveAllKeepsNoDuplicates(symptoms, symptom);
    }
  }

  /** Removal keeps the other symptoms in their order: it distributes over any split of the list. */
  lemma ToggleRemovalKeepsOrder(front: seq<string>, back: seq<string>, symptom: string)
    requires symptom in front + back
    ensures ToggleSymptom(front + back, symptom) == RemoveAll(front, symptom) + RemoveAll(back, symptom)
  {
    RemoveAllAppend(front, back, symptom);
  }
}
