/**
 * The static `String` fields of `android.os.Build`, as a map from field name
 * to value, and the all-or-nothing overwrite `simulateTabletDevice` performs
 * on them. The JNI calls it makes are replaced by their success outcomes.
 */
module Build {
  const MANUFACTURER: string := "MANUFACTURER"
  const BRAND: string := "BRAND"
  const MODEL: string := "MODEL"

  /** A device identity, in the parameter order of `simulateTabletDevice`. */
  datatype Identity = Identity(brand: string, model: string, manufacturer: string)

  /** Whether each JNI call of the overwrite returns a non-null result. */
  datatype JniOutcomes = JniOutcomes(
    classFound: bool,
    manufacturerField: bool, brandField: bool, modelField: bool,
    manufacturerString: bool, brandString: bool, modelString: bool)

  /** The three `GetStaticFieldID` calls all resolve. */
  predicate FieldsResolved(jni: JniOutcomes)
  {
    jni.manufacturerField && jni.brandField && jni.modelField
  }

  /** The three `NewStringUTF` calls all construct a string. */
  predicate StringsCreated(jni: JniOutcomes)
  {
    jni.manufacturerString && jni.brandString && jni.modelString
  }

  /** The overwrite reaches its writes: the class, the fields and the strings are all there. */
  predicate Succeeds(jni: JniOutcomes)
  {
    jni.classFound && FieldsResolved(jni) && StringsCreated(jni)
  }

  /** The Build fields after one overwrite attempt: all three written, or none. */
  function Overwrite(fields: map<string, string>, id: Identity, jni: JniOutcomes): (r: map<string, string>)
    ensures !Succeeds(jni) ==> r == fields
    ensures Succeeds(jni) ==> r.Keys == fields.Keys + {MANUFACTURER, BRAND, MODEL}
    ensures Succeeds(jni) ==> r[MANUFACTURER] == id.manufacturer && r[BRAND] == id.brand && r[MODEL] == id.model
    ensures forall f :: f in fields && f != MANUFACTURER && f != BRAND && f != MODEL ==> f in r && r[f] == fields[f]
  {
    if Succeeds(jni) then fields[MANUFACTURER := id.manufacturer][BRAND := id.brand][MODEL := id.model]
    else fields
  }

  /** Either every identity field carries its new value, or the fields are exactly as before. */
  lemma OverwriteAllOrNothing(fields: map<string, string>, id: Identity, jni: JniOutcomes)
    ensures var r := Overwrite(fields, id, jni);
      r == fields ||
      (MANUFACTURER in r && BRAND in r && MODEL in r &&
       r[MANUFACTURER] == id.manufacturer && r[BRAND] == id.brand && r[MODEL] == id.model)
  {
  }

  /** After a successful overwrite, a second attempt with the same identity changes nothing, whatever its outcome. */
  lemma OverwriteIdempotent(fields: map<string, string>, id: Identity, first: JniOutcomes, second: JniOutcomes)
    requires Succeeds(first)
    ensures Overwrite(Overwrite(fields, id, first), id, second) == Overwrite(fields, id, first)
  {
  }

  /** Repeating an attempt under the same outcomes leaves the fields an attempt made once leaves. */
  lemma OverwriteTwiceSameOutcomes(fields: map<string, string>, id: Identity, jni: JniOutcomes)
    ensures Overwrite(Overwrite(fields, id, jni), id, jni) == Overwrite(fields, id, jni)
  {
  }
}
