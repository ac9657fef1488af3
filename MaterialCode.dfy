/** The material-code rewrite (`src/utils/materialCodeTransformer.ts`): a code
    of the form "10…1" is turned into the matching "20…2" code, and every
    other code is kept. */
module MaterialCode {
  import opened Strings

  /** `shouldTransformMaterialCode(code)` */
  predicate ShouldTransform(code: string) {
    StartsWith(code, "10") && EndsWith(code, "1") && |code| > 2
  }

  /** The characters between the two-character prefix and the last character. */
  function Middle(code: string): string
    requires |code| > 2
  {
    code[2..|code| - 1]
  }

  /** `transformMaterialCode(code)` */
  function Transform(code: string): (r: string)
    ensures |r| == |code|
    ensures !ShouldTransform(code) ==> r == code
    ensures ShouldTransform(code) ==>
      StartsWith(r, "20") && EndsWith(r, "2") && Middle(r) == Middle(code)
  {
    if code == "" then code
    else if ShouldTransform(code) then "20" + Middle(code) + "2"
    else code
  }

  /** `transformMaterialCodes(codes)` */
  function TransformAll(codes: seq<string>): (r: seq<string>)
    ensures |r| == |codes|
    ensures forall k :: 0 <= k < |codes| ==> r[k] == Transform(codes[k])
  {
    if |codes| == 0 then [] else [Transform(codes[0])] + TransformAll(codes[1..])
  }

  /** The rewrite changes a code exactly when it should. */
  lemma TransformChangesIff(code: string)
    ensures ShouldTransform(code) <==> Transform(code) != code
  {
    if ShouldTransform(code) {
      assert Transform(code)[1] == '0' && code[1] == '0';
      assert Transform(code)[0] != code[0];
    }
  }

  /** A rewritten code is not rewritten again. */
  lemma TransformIdempotent(code: string)
    ensures Transform(Transform(code)) == Transform(code)
  {
    var r := Transform(code);
    if ShouldTransform(code) {
      assert r[0] == '2';
      assert !StartsWith(r, "10");
    }
  }

  /** The reverse rewrite, "20…2" back to "10…1". */
  function Untransform(code: string): string {
    if StartsWith(code, "20") && EndsWith(code, "2") && |code| > 2 then "10" + Middle(code) + "1" else code
  }

  /** Every rewritten code can be traced back to the code it came from. */
  lemma UntransformTransform(code: string)
    requires ShouldTransform(code)
    ensures Untransform(Transform(code)) == code
  {
    var m := Middle(code);
    assert code == code[..2] + m + code[|code| - 1..];
    assert code[..2] == "10";
    assert code[|code| - 1..] == "1";
  }

  /** Two codes that should be rewritten are rewritten to different codes. */
  lemma TransformInjective(a: string, b: string)
    requires ShouldTransform(a) && ShouldTransform(b) && Transform(a) == Transform(b)
    ensures a == b
  {
    UntransformTransform(a);
    UntransformTransform(b);
  }
}
