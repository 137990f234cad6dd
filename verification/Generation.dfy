// Generation annotations: reading, validating and comparing them.
module Generation {
  import opened Wrappers
  import opened Json
  import opened Text
  import opened Work

  datatype GenerationError =
    | NilObject
    | MissingAnnotation
    | EmptyAnnotation
    | InvalidAnnotation(text: string)
    | NotPositive(gen: int)

  datatype WorkError =
    | InvalidWork(reason: GenerationError)
    | UnreadableManifest(index: nat)
    | InvalidManifest(index: nat, cause: GenerationError)

  datatype Operation = Create | Update | Skip

  /** `CompareGenerations`: only equality is looked at, so a lower new generation is also an update. */
  function CompareGenerations(newGen: int, existingGen: int, found: bool): (op: Operation)
    ensures op == Create <==> !found
    ensures op == Skip <==> found && newGen == existingGen
  {
    if !found then Create
    else if existingGen == newGen then Skip
    else Update
  }

  function GetGeneration(annotations: Option<map<string, string>>): (gen: int)
    ensures IsInt64(gen)
  {
    if annotations.None? || GENERATION !in annotations.value || annotations.value[GENERATION] == "" then
      0
    else
      ParseInt64(annotations.value[GENERATION]).GetOr(0)
  }

  /** None stands for a nil object. */
  function GetGenerationFromUnstructured(obj: Option<Json>): int {
    if obj.None? then 0 else GetGeneration(GetAnnotations(obj.value))
  }

  /** Passes exactly when the getter would return a positive generation. */
  function ValidateGeneration(annotations: Option<map<string, string>>): (r: Result<(), GenerationError>)
    ensures r.Ok? <==> GetGeneration(annotations) > 0
    ensures r != Err(NilObject)
    ensures r == Err(MissingAnnotation) <==> annotations.None? || GENERATION !in annotations.value
    ensures r == Err(EmptyAnnotation) <==> annotations.Some? && (GENERATION, "") in annotations.value.Items
    ensures forall text :: r == Err(InvalidAnnotation(text)) <==>
      annotations.Some? && (GENERATION, text) in annotations.value.Items && text != "" && ParseInt64(text).None?
    ensures r.Err? && r.error.NotPositive? ==> r.error.gen == GetGeneration(annotations)
  {
    if annotations.None? || GENERATION !in annotations.value then
      Err(MissingAnnotation)
    else
      var text := annotations.value[GENERATION];
      if text == "" then Err(EmptyAnnotation)
      else
        var parsed := ParseInt64(text);
        if parsed.None? then Err(InvalidAnnotation(text))
        else if parsed.value <= 0 then Err(NotPositive(parsed.value))
        else Ok(())
  }

  /** The same for an unstructured object; a nil one is an error of its own. */
  function ValidateGenerationFromUnstructured(obj: Option<Json>): (r: Result<(), GenerationError>)
    ensures r.Ok? <==> GetGenerationFromUnstructured(obj) > 0
    ensures obj.Some? ==> r == ValidateGeneration(GetAnnotations(obj.value))
    ensures obj.None? <==> r == Err(NilObject)
  {
    if obj.None? then Err(NilObject) else ValidateGeneration(GetAnnotations(obj.value))
  }

  /** The annotation holds a text that spells the number. */
  ghost predicate Annotated(annotations: Option<map<string, string>>, n: int) {
    annotations.Some? && "hyperfleet.io/generation" in annotations.value
    && exists sign, zeros :: Spells(annotations.value["hyperfleet.io/generation"], n, sign, zeros)
  }

  /** A generation other than 0 is read exactly where the annotation spells it; all else reads as 0. */
  lemma GenerationReads(annotations: Option<map<string, string>>, n: int)
    requires n != 0
    ensures GetGeneration(annotations) == n <==>
      -0x8000_0000_0000_0000 <= n < 0x8000_0000_0000_0000 && Annotated(annotations, n)
  {
    hide ParseInt64, Spells;
    if annotations.Some? && GENERATION in annotations.value {
      ParseReads(annotations.value[GENERATION], n);
      EmptySpellsNothing(n);
    }
  }

  lemma EmptySpellsNothing(n: int)
    ensures forall sign, zeros :: !Spells("", n, sign, zeros)
  {
  }

  predicate ManifestValid(m: Json) {
    Unmarshals(m) && GetGenerationFromUnstructured(Some(m)) > 0
  }

  predicate WorkValid(work: ManifestWork) {
    GetGeneration(work.annotations) > 0 && forall m :: m in work.spec.manifests ==> ManifestValid(m)
  }

  /**
   * Accepts exactly the works whose own and whose every manifest's generation is positive; otherwise names
   * the first offender.
   */
  method ValidateManifestWorkGeneration(work: ManifestWork) returns (r: Result<(), WorkError>)
    ensures r.Ok? <==> WorkValid(work)
    ensures r.Ok? <==>
      GetGeneration(work.annotations) > 0
      && forall i :: 0 <= i < |work.spec.manifests| ==>
           Unmarshals(work.spec.manifests[i]) && GetGeneration(GetAnnotations(work.spec.manifests[i])) > 0
    ensures r.Err? && r.error.InvalidWork? <==> GetGeneration(work.annotations) <= 0
    ensures r.Err? && r.error.InvalidWork? ==> Err(r.error.reason) == ValidateGeneration(work.annotations)
    ensures r.Err? && !r.error.InvalidWork? ==>
      var i := r.error.index;
      i < |work.spec.manifests| && !ManifestValid(work.spec.manifests[i])
      && (r.error.UnreadableManifest? <==> !Unmarshals(work.spec.manifests[i]))
      && (r.error.InvalidManifest? ==>
            Err(r.error.cause) == ValidateGeneration(GetAnnotations(work.spec.manifests[i])))
      && forall j :: 0 <= j < i ==> ManifestValid(work.spec.manifests[j])
  {
    var own := ValidateGeneration(work.annotations);
    if own.Err? {
      return Err(InvalidWork(own.error));
    }
    for i := 0 to |work.spec.manifests|
      invariant forall j :: 0 <= j < i ==> ManifestValid(work.spec.manifests[j])
    {
      var m := work.spec.manifests[i];
      assert m in work.spec.manifests;
      if !Unmarshals(m) {
        return Err(UnreadableManifest(i));
      }
      var checked := ValidateGenerationFromUnstructured(Some(m));
      if checked.Err? {
        return Err(InvalidManifest(i, checked.error));
      }
    }
    return Ok(());
  }
}
