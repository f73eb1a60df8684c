/** The base environment of learning/environment.py: a node count and one
    failure probability per node, all zero; its two probability hooks do
    nothing and return 0. */
module BaseEnvironment {

  class Environment {
    const totalNodes: nat
    const failureProbability: array<real>

    /** learning/environment.py:4-6. */
    constructor (n: nat)
      ensures totalNodes == n
      ensures failureProbability[..] == seq(n, _ => 0.0)
      ensures fresh(failureProbability)
    {
      totalNodes := n;
      failureProbability := new real[n](_ => 0.0);
    }

    /** learning/environment.py:8-9. */
    method SetProbability() returns (r: int)
      ensures r == 0
    {
      r := 0;
    }

    /** learning/environment.py:11-12. */
    method UpdateProbability() returns (r: int)
      ensures r == 0
    {
      r := 0;
    }
  }
}
