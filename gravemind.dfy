/** The gravemind's memory, reduced to the accumulated-mass counter the entities credit. */
module Gravemind {

  class GravemindMemory {
    var sculkAccumulatedMass: int

    constructor (mass: int)
      ensures sculkAccumulatedMass == mass
    {
      sculkAccumulatedMass := mass;
    }

    /** `addSculkAccumulatedMass`: adds `amount` to the counter, whatever its sign. */
    method AddSculkAccumulatedMass(amount: int)
      modifies this`sculkAccumulatedMass
      ensures sculkAccumulatedMass == old(sculkAccumulatedMass) + amount
    {
      sculkAccumulatedMass := sculkAccumulatedMass + amount;
    }
  }
}
