/**
 * The "then" steps of features/steps/slide.py, each as a check that passes
 * or fails on a slide's shape tree. A step that reads the placeholder
 * collection receives the slide's shape tree and takes slide.placeholders of
 * it, as the "given" steps store it. A step that raises (an assertion or an
 * index error) fails.
 */
module SlideSteps {
  import opened Wrappers
  import opened SlideShapes

  /** The wrapper classes the feature expects, in order. */
  const ExpectedTypes: seq<WrapperClass> := [SlidePlaceholder, SlidePlaceholder, Picture]

  /** When "each slide shape is of the appropriate type" passes: every shape, by index, has exactly its expected class. */
  predicate AppropriateTypes(slide: ShapeView)
  {
    slide.Length() <= |ExpectedTypes| &&
    forall i :: 0 <= i < slide.Length() ==> slide.At(i) == Ok(ExpectedTypes[i])
  }

  /** When indexed access at 0 and 1 returns an instance of c in the view. */
  predicate FirstTwoAreInstances(view: ShapeView, c: WrapperClass)
  {
    view.Length() >= 2 && IsInstance(Wrap(view.elements[0]), c) && IsInstance(Wrap(view.elements[1]), c)
  }

  /**
   * then_each_slide_shape_is_of_the_appropriate_type: walks the shapes with
   * their index and compares each exact class with the expected list; a
   * fourth shape has no expected class and fails the step.
   */
  method EachShapeOfAppropriateType(slide: ShapeView) returns (pass: bool)
    ensures pass <==> AppropriateTypes(slide)
  {
    var shapes := slide.Items();
    var idx := 0;
    while idx < |shapes|
      invariant 0 <= idx <= |shapes|
      invariant idx <= |ExpectedTypes|
      invariant forall i :: 0 <= i < idx ==> shapes[i] == ExpectedTypes[i]
    {
      if idx >= |ExpectedTypes| || shapes[idx] != ExpectedTypes[idx] {
        return false;
      }
      idx := idx + 1;
    }
    return true;
  }

  /** then_can_access_shape_by_index: shapes[0] and shapes[1] exist and are base shapes. */
  method AccessShapeByIndex(slide: ShapeView) returns (pass: bool)
    ensures pass <==> FirstTwoAreInstances(slide, BaseShape)
    ensures pass <==> slide.Length() >= 2
  {
    for idx := 0 to 2
      invariant idx <= slide.Length()
      invariant forall i :: 0 <= i < idx ==> IsInstance(Wrap(slide.elements[i]), BaseShape)
    {
      var shape := slide.At(idx);
      if shape.Err? || !IsInstance(shape.value, BaseShape) {
        return false;
      }
    }
    return true;
  }

  /** then_can_access_slide_placeholder_by_index: placeholders[0] and [1] exist and are slide placeholders. */
  method AccessPlaceholderByIndex(slide: ShapeView) returns (pass: bool)
    ensures pass <==> FirstTwoAreInstances(Placeholders(slide), SlidePlaceholder)
  {
    var placeholders := Placeholders(slide);
    for idx := 0 to 2
      invariant idx <= placeholders.Length()
      invariant forall i :: 0 <= i < idx ==> IsInstance(Wrap(placeholders.elements[i]), SlidePlaceholder)
    {
      var placeholder := placeholders.At(idx);
      if placeholder.Err? || !IsInstance(placeholder.value, SlidePlaceholder) {
        return false;
      }
    }
    return true;
  }

  /** then_can_iterate_over_the_shapes: counts the shapes iteration yields, each a base shape; three pass. */
  method IterateShapes(slide: ShapeView) returns (pass: bool)
    ensures pass <==> slide.Length() == 3
  {
    var actualCount := 0;
    var shapes := slide.Items();
    for i := 0 to |shapes|
      invariant actualCount == i
    {
      actualCount := actualCount + 1;
      // Never taken: every wrapper class is a base shape (see Wrap).
      if !IsInstance(shapes[i], BaseShape) {
        return false;
      }
    }
    return actualCount == 3;
  }

  /** then_can_iterate_over_the_slide_placeholders: counts the placeholders iteration yields, each a slide placeholder; two pass. */
  method IterateSlidePlaceholders(slide: ShapeView) returns (pass: bool)
    ensures pass <==> Placeholders(slide).Length() == 2
  {
    var actualCount := 0;
    var placeholders := Placeholders(slide).Items();
    PlaceholderItems(slide);
    for i := 0 to |placeholders|
      invariant actualCount == i
    {
      actualCount := actualCount + 1;
      if !IsInstance(placeholders[i], SlidePlaceholder) {
        return false;
      }
    }
    return actualCount == 2;
  }

  /** then_len_of_shape_collection_is_3: len agrees with what iteration yields. */
  predicate ShapeCountIsThree(slide: ShapeView): (pass: bool)
    ensures pass <==> |slide.Items()| == 3
  {
    slide.Length() == 3
  }

  /** then_len_of_placeholder_collection_is_2: the tree has exactly two placeholder children. */
  predicate PlaceholderCountIsTwo(slide: ShapeView): (pass: bool)
    ensures pass <==> |PlaceholderSet(slide.elements)| == 2
  {
    PlaceholderCount(slide.elements);
    Placeholders(slide).Length() == 2
  }

  /**
   * Every check of the slide feature on one slide. The two iteration steps
   * pass under the same conditions as the two length steps, as their
   * postconditions say, so they are not listed again.
   */
  predicate AllStepsPass(slide: ShapeView)
  {
    AppropriateTypes(slide) && FirstTwoAreInstances(slide, BaseShape)
    && FirstTwoAreInstances(Placeholders(slide), SlidePlaceholder)
    && ShapeCountIsThree(slide) && PlaceholderCountIsTwo(slide)
  }

  /** Indexed access to a slide's first two placeholders succeeds exactly when it has two placeholders. */
  lemma PlaceholderAccessNeedsTwo(slide: ShapeView)
    ensures FirstTwoAreInstances(Placeholders(slide), SlidePlaceholder) <==> Placeholders(slide).Length() >= 2
  {
  }

  /**
   * The steps pin the slide down: they all pass exactly when the shape tree
   * wraps to placeholder, placeholder, picture.
   */
  lemma StepsPassExactly(slide: ShapeView)
    ensures AllStepsPass(slide) <==> slide.Items() == ExpectedTypes
  {
    PlaceholderAccessNeedsTwo(slide);
    var items := slide.Items();
    if items == ExpectedTypes {
      var s := slide.elements;
      assert IsPlaceholder(s[0]) && IsPlaceholder(s[1]) && !IsPlaceholder(s[2]);
      PlaceholderCount(s);
      assert PlaceholderSet(s) == {0, 1};
      assert |PlaceholderSet(s)| == 2;
    }
    if AllStepsPass(slide) {
      assert forall i :: 0 <= i < 3 ==> items[i] == ExpectedTypes[i];
    }
  }

  /** The fixture slide passes every step. */
  lemma FixturePassesSteps()
    ensures AllStepsPass(ShapeTree(FixtureSlide))
  {
    FixtureShapeTree();
    StepsPassExactly(ShapeTree(FixtureSlide));
  }
}
