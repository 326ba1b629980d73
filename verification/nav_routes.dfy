/** `NavRoutes`: the three route strings and the edit route for one activity. */
module NavRoutes {
  import opened Nullable
  import opened KotlinText

  const Home: string := "home"
  const AddActivity: string := "add_activity"

  /** The edit route's prefix, up to the argument. */
  const EditPrefix: string := "edit_activity/"

  /** The argument placeholder of the edit route's pattern. */
  const ActivityIdArgument: string := "{activityId}"

  /** The pattern the navigation graph registers for the edit screen. */
  const EditActivityPattern: string := "edit_activity/{activityId}"

  /** `editActivity(activityId)`: the prefix followed by the id in decimal. */
  function EditActivity(activityId: int): (route: string)
    ensures |route| > |EditPrefix| && route[..|EditPrefix|] == EditPrefix
    ensures route[|EditPrefix|..] == Decimal(activityId)
  {
    EditPrefix + Decimal(activityId)
  }

  /**
   * The first occurrence of `placeholder` in `s` replaced by `value`; `s`
   * unchanged when it does not occur. This is how a route pattern's
   * argument is filled in.
   */
  function FillArgument(s: string, placeholder: string, value: string): string
    requires |placeholder| >= 1
    decreases |s|
  {
    if |s| < |placeholder| then s
    else if s[..|placeholder|] == placeholder then value + s[|placeholder|..]
    else [s[0]] + FillArgument(s[1..], placeholder, value)
  }

  /**
   * Filling skips a prefix in which the placeholder cannot start, because
   * the placeholder's first character never occurs in it.
   */
  lemma {:induction false} FillSkipsPrefix(pre: string, rest: string, placeholder: string, value: string)
    requires |placeholder| >= 1
    requires placeholder[0] !in pre
    ensures FillArgument(pre + rest, placeholder, value) == pre + FillArgument(rest, placeholder, value)
    decreases |pre|
  {
    if pre != [] {
      var s := pre + rest;
      if |s| < |placeholder| {
        assert FillArgument(rest, placeholder, value) == rest;
        assert FillArgument(s, placeholder, value) == s;
      } else {
        assert pre[0] in pre;
        assert s[..|placeholder|][0] == pre[0];
        assert s[..|placeholder|] != placeholder;
        assert s[1..] == pre[1..] + rest;
        assert placeholder[0] !in pre[1..];
        FillSkipsPrefix(pre[1..], rest, placeholder, value);
        calc {
          FillArgument(s, placeholder, value);
          [pre[0]] + FillArgument(pre[1..] + rest, placeholder, value);
          [pre[0]] + (pre[1..] + FillArgument(rest, placeholder, value));
          { assert pre == [pre[0]] + pre[1..]; }
          pre + FillArgument(rest, placeholder, value);
        }
      }
    } else {
      assert pre + rest == rest;
    }
  }

  /** The argument's opening brace never occurs in the fixed prefix. */
  lemma PrefixHasNoBrace()
    ensures ActivityIdArgument[0] !in EditPrefix
  {
    assert EditPrefix == "edit_" + "activity/";
    assert '{' !in "edit_";
    assert '{' !in "activity/";
  }

  /** `editActivity(id)` is the edit pattern with the id filled in. */
  lemma EditRouteFillsPattern(activityId: int)
    ensures FillArgument(EditActivityPattern, ActivityIdArgument, Decimal(activityId)) == EditActivity(activityId)
  {
    assert EditActivityPattern == EditPrefix + ActivityIdArgument;
    PrefixHasNoBrace();
    FillSkipsPrefix(EditPrefix, ActivityIdArgument, ActivityIdArgument, Decimal(activityId));
    assert FillArgument(ActivityIdArgument, ActivityIdArgument, Decimal(activityId)) == Decimal(activityId) + [];
  }

  /** The navigation side: the id an edit route carries, if it is one. */
  function ParseEditRoute(route: string): Option<int> {
    if |route| >= |EditPrefix| && route[..|EditPrefix|] == EditPrefix then ParseDecimal(route[|EditPrefix|..])
    else None
  }

  /** An edit route carries back exactly the id it was built from. */
  lemma EditRouteRoundTrip(activityId: int)
    ensures ParseEditRoute(EditActivity(activityId)) == Some(activityId)
  {
    DecimalRoundTrip(activityId);
  }

  /** Distinct ids give distinct edit routes. */
  lemma EditRouteInjective(a: int, b: int)
    ensures EditActivity(a) == EditActivity(b) <==> a == b
  {
    EditRouteRoundTrip(a);
    EditRouteRoundTrip(b);
  }

  /**
   * No two routes collide: home, add, and every edit route differ from each
   * other, and no edit route is the unfilled pattern.
   */
  lemma RoutesDistinct(activityId: int)
    ensures Home != AddActivity
    ensures EditActivity(activityId) != Home && EditActivity(activityId) != AddActivity
    ensures EditActivity(activityId) != EditActivityPattern
    ensures ParseEditRoute(Home).None? && ParseEditRoute(AddActivity).None?
  {
    var route := EditActivity(activityId);
    assert route[0] == 'e';
    assert Home[0] == 'h' && AddActivity[0] == 'a';
    assert EditActivityPattern[|EditPrefix|] == '{';
  }
}
