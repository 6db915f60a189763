/** The request body of the server's design endpoint, with its defaults. */
module KolamParams {
  datatype KolamParameters = KolamParameters(
    designType: string,
    axiom: string,
    rules: map<string, string>,
    angle: int,            // accepted but not used by any generator
    dotSize: int,
    iterations: int,
    rhombusSize: int,
    gridSize: int,
    polygon1Sides: int,
    polygon1Radius: int,
    polygon2Sides: int,
    polygon2Radius: int)

  /** The default rewriting rules. */
  const DefaultRules: map<string, string> := map["A" := "AFBFA", "B" := "AFBFBFBFA"]

  /** The values a request gets for the fields it leaves out. */
  const Defaults: KolamParameters := KolamParameters(
    "lsystem", "FBFBFBFB", DefaultRules, 45, 10, 2, 5, 8, 6, 3, 8, 2)
}
