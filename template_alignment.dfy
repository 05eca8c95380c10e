/**
 * The AlignToTemplate image manipulation: an immutable pairing of a template image and a minimum
 * similarity threshold, whose only operation is alignment with validation against the template.
 */
module TemplateAlignment {
  import opened Results
  import opened ImageAlignment

  /** The bundled commodity-kiosk template. */
  const TEMPLATE_PATH: string := "/images/ocr/commodity_kiosk_template.jpg"

  /** The similarity a default instance requires of an aligned image. */
  const MIN_SIMILARITY_THRESHOLD: real := 0.12

  /** readFromResource's ImageProcessingException for a resource that does not exist. */
  datatype TemplateError = ResourceNotFound(resourcePath: string)

  /** The configuration, fixed at construction; a datatype, so it can never change afterwards. */
  datatype AlignToTemplate<I> = AlignToTemplate(template: I, minSimilarityThreshold: real)
  {
    /** manipulate(image): alignment of `image` to the template, validated with the threshold. */
    method Manipulate(image: I, cv: Vision<I>) returns (r: Result<I, AlignError>)
      ensures r == Aligned(image, template, minSimilarityThreshold, cv)
    {
      r := AlignToReferenceWithValidation(image, template, minSimilarityThreshold, cv);
    }
  }

  /**
   * The two-argument constructor: the template read from the resource path (`resources` says what
   * each path holds), and the threshold as given.
   */
  function WithTemplate<I>(templateImage: string, minSimilarityThreshold: real, resources: string -> Option<I>)
    : (r: Result<AlignToTemplate<I>, TemplateError>)
    ensures r.Failure? <==> resources(templateImage).None?
    ensures r.Failure? ==> r.error == ResourceNotFound(templateImage)
    ensures r.Success? ==> r.value.template == resources(templateImage).value
    ensures r.Success? ==> r.value.minSimilarityThreshold == minSimilarityThreshold
  {
    match resources(templateImage)
    case None => Failure(ResourceNotFound(templateImage))
    case Some(template) => Success(AlignToTemplate(template, minSimilarityThreshold))
  }

  /** The no-argument constructor: the bundled template and the default threshold. */
  function Default<I>(resources: string -> Option<I>): (r: Result<AlignToTemplate<I>, TemplateError>)
    ensures r.Failure? <==> resources(TEMPLATE_PATH).None?
    ensures r.Success? ==> r.value.template == resources(TEMPLATE_PATH).value
    ensures r.Success? ==> r.value.minSimilarityThreshold == 0.12
  {
    WithTemplate(TEMPLATE_PATH, MIN_SIMILARITY_THRESHOLD, resources)
  }

  /**
   * A default instance holds the bundled template and threshold 0.12, which is positive, so every
   * call to manipulate validates its warp; its only failure at construction is a missing template.
   */
  lemma DefaultAlwaysValidates<I>(resources: string -> Option<I>)
    ensures Default(resources).Failure? <==> resources(TEMPLATE_PATH).None?
    ensures Default(resources).Success? ==>
      && Default(resources).value.template == resources(TEMPLATE_PATH).value
      && Default(resources).value.minSimilarityThreshold == 0.12
      && Default(resources).value.minSimilarityThreshold > 0.0
  {
  }

  /**
   * Below the threshold, a default instance's manipulate returns the image it was given (not
   * null): the soft-failure path of alignment with validation.
   */
  lemma DefaultReturnsInputBelowThreshold<I>(resources: string -> Option<I>, image: I, cv: Vision<I>, warped: I)
    requires Default(resources).Success?
    requires Warp(image, Default(resources).value.template, cv) == Success(warped)
    requires Similarity(warped, Default(resources).value.template, cv) < MIN_SIMILARITY_THRESHOLD
    ensures Aligned(image, Default(resources).value.template, Default(resources).value.minSimilarityThreshold, cv)
         == Success(image)
  {
    PoorAlignmentReturnsOriginal(image, Default(resources).value.template, MIN_SIMILARITY_THRESHOLD, cv, warped);
  }

  /**
   * Whatever a default instance returns other than its input image is a warp that scored at
   * least 0.12 against the template.
   */
  lemma DefaultWarpsScoreAtLeastThreshold<I>(resources: string -> Option<I>, image: I, cv: Vision<I>)
    requires Default(resources).Success?
    ensures var t := Default(resources).value;
      var r := Aligned(image, t.template, t.minSimilarityThreshold, cv);
      r.Success? && r.value != image ==> Similarity(r.value, t.template, cv) >= MIN_SIMILARITY_THRESHOLD
  {
    var t := Default(resources).value;
    match Warp(image, t.template, cv)
    case Failure(_) =>
    case Success(warped) =>
      ReturnedWarpPassedValidation(image, t.template, t.minSimilarityThreshold, cv, warped);
  }
}
