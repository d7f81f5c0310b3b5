/** The connections container supplied by the pipeline framework, reduced to
    what the tasks of this package use: the declared input, prerequisite
    input and output slots, `del self.<slot>` and `discard` on a slot set.
    A slot is identified by its attribute name; each task names its slots
    with an enumeration. */
module Pipeline {

  class Connections<S(==)> {
    /** The regular input slots. */
    var inputs: set<S>
    /** The prerequisite input slots, which the framework keeps apart from
        the regular inputs. */
    var prerequisites: set<S>
    /** The output slots. */
    var outputs: set<S>

    /** A slot is of exactly one kind. */
    ghost predicate Valid()
      reads this
    {
      inputs !! outputs && inputs !! prerequisites && prerequisites !! outputs
    }

    constructor (inputs: set<S>, prerequisites: set<S>, outputs: set<S>)
      requires inputs !! outputs && inputs !! prerequisites && prerequisites !! outputs
      ensures Valid()
      ensures this.inputs == inputs
      ensures this.prerequisites == prerequisites
      ensures this.outputs == outputs
    {
      this.inputs := inputs;
      this.prerequisites := prerequisites;
      this.outputs := outputs;
    }

    /** `del self.<name>`: the slot must still be declared, of whatever kind,
        otherwise the deletion fails; afterwards it is in no set and every
        other slot is where it was. */
    method Del(name: S)
      requires Valid()
      requires name in inputs || name in prerequisites || name in outputs
      modifies this
      ensures Valid()
      ensures forall x :: x in inputs <==> x in old(inputs) && x != name
      ensures forall x :: x in outputs <==> x in old(outputs) && x != name
      ensures name !in old(prerequisites) ==> prerequisites == old(prerequisites)
      ensures forall x :: x in prerequisites <==> x in old(prerequisites) && x != name
    {
      inputs := inputs - {name};
      prerequisites := prerequisites - {name};
      outputs := outputs - {name};
    }

    /** `if not keep: del self.<name>`: the slot must be declared unless it
        is kept. */
    method DelUnless(keep: bool, name: S)
      requires Valid()
      requires keep || name in inputs || name in prerequisites || name in outputs
      modifies this
      ensures Valid()
      ensures forall x :: x in inputs <==> x in old(inputs) && (x == name ==> keep)
      ensures forall x :: x in outputs <==> x in old(outputs) && (x == name ==> keep)
      ensures name !in old(prerequisites) ==> prerequisites == old(prerequisites)
      ensures forall x :: x in prerequisites <==> x in old(prerequisites) && (x == name ==> keep)
    {
      if !keep {
        Del(name);
      }
    }

    /** `self.inputs.discard(<name>)`: takes the name out of the regular
        inputs if it is there and never fails; a prerequisite of that name
        is not touched. */
    method Discard(name: S)
      requires Valid()
      modifies this
      ensures Valid()
      ensures inputs == Discarded(old(inputs), name)
      ensures prerequisites == old(prerequisites)
      ensures outputs == old(outputs)
    {
      inputs := inputs - {name};
    }

    /** `self.prerequisiteInputs.discard(<name>)`: the same for the
        prerequisite inputs. */
    method DiscardPrerequisite(name: S)
      requires Valid()
      modifies this
      ensures Valid()
      ensures inputs == old(inputs)
      ensures prerequisites == Discarded(old(prerequisites), name)
      ensures outputs == old(outputs)
    {
      prerequisites := prerequisites - {name};
    }
  }

  /** The set `discard` leaves behind: `name` is gone and every other
      element is where it was. */
  function Discarded<S>(s: set<S>, name: S): (r: set<S>)
    ensures name !in r
    ensures r + {name} == s + {name}
    ensures name !in s ==> r == s
  {
    s - {name}
  }

  /** Discarding the same name twice is the same as discarding it once. */
  lemma DiscardIdempotent<S>(s: set<S>, name: S)
    ensures Discarded(Discarded(s, name), name) == Discarded(s, name)
  {
  }

  /** Two discards commute. */
  lemma DiscardCommutes<S>(s: set<S>, a: S, b: S)
    ensures Discarded(Discarded(s, a), b) == Discarded(Discarded(s, b), a)
  {
  }
}
