/**
 * The solar plant: plays a 1-second power profile (MW) given either as a function of the step index or as a
 * finite sequence of values; once a sequence runs out the output is 0, and negative values are cut to 0.
 */
module Solar {
  import opened Numerics
  import opened Wrappers

  /** What the plant can be built from; `Unsupported` stands for a value that is neither callable nor
      iterable. */
  datatype ProfileSource =
    | FromFunction(f: int -> real)
    | FromValues(values: seq<real>)
    | Unsupported

  datatype Mode = Callable | Iter

  /** The mode chosen at construction: a function is called, a sequence is iterated; anything else is the
      `ValueError` of the constructor. */
  function SelectMode(src: ProfileSource): (r: Result<Mode, string>)
    ensures r.Err? <==> src.Unsupported?
    ensures r.Ok? ==> (r.value == Callable <==> src.FromFunction?)
  {
    match src
    case FromFunction(_) => Ok(Callable)
    case FromValues(_) => Ok(Iter)
    case Unsupported => Err("profile_source must be iterable or callable")
  }

  /** The raw profile value at step `k`: `f(k)`, or the `k`-th value while there is one and 0 afterwards. */
  function Raw(src: ProfileSource, k: nat): real
  {
    match src
    case FromFunction(f) => f(k)
    case FromValues(vs) => if k < |vs| then vs[k] else 0.0
    case Unsupported => 0.0
  }

  /** The output at step `k`: the raw value cut at 0 from below. */
  function Output(src: ProfileSource, k: nat): (r: real)
    ensures r >= 0.0
    ensures r == Raw(src, k) || (r == 0.0 && Raw(src, k) < 0.0)
  {
    Max(0.0, Raw(src, k))
  }

  /** Step `k` of a function profile outputs `max(0, f(k))`. */
  lemma CallableOutput(f: int -> real, k: nat)
    ensures f(k) >= 0.0 ==> Output(FromFunction(f), k) == f(k)
    ensures f(k) < 0.0 ==> Output(FromFunction(f), k) == 0.0
  {
  }

  /** Step `k` of a value profile outputs `max(0, values[k])` while values remain and 0 for ever after. */
  lemma IterOutput(vs: seq<real>, k: nat)
    ensures k < |vs| ==> Output(FromValues(vs), k) == Max(0.0, vs[k])
    ensures k >= |vs| ==> Output(FromValues(vs), k) == 0.0
  {
  }

  class SolarPlant {
    const name: string
    const source: ProfileSource
    const mode: Mode
    /** The values the iterator has not yet handed out (empty in callable mode). */
    var remaining: seq<real>
    var index: nat
    var currentPowerMw: real

    /** The iterator always sits at the step index. */
    predicate Valid()
      reads this
    {
      match source
      case FromFunction(_) => mode == Callable && remaining == []
      case FromValues(vs) =>
        mode == Iter && (if index <= |vs| then remaining == vs[index..] else remaining == [])
      case Unsupported => false
    }

    /** Builds a plant from a supported source (see `Create` for the error path). */
    constructor (name: string, source: ProfileSource)
      requires !source.Unsupported?
      ensures Valid() && this.source == source && this.name == name
      ensures index == 0 && currentPowerMw == 0.0
    {
      this.name := name;
      this.source := source;
      match source {
        case FromFunction(_) =>
          mode := Callable;
          remaining := [];
        case FromValues(vs) =>
          mode := Iter;
          remaining := vs;
      }
      index := 0;
      currentPowerMw := 0.0;
    }

    /** `step(now, dt_s)`: takes the next profile value (0 once exhausted), stores and returns it cut at 0,
        and advances the index by one. The wall clock and step length are unused. */
    method Step() returns (p: real)
      requires Valid()
      modifies this
      ensures Valid()
      ensures p == currentPowerMw == Output(source, old(index))
      ensures index == old(index) + 1
    {
      var value := 0.0;
      if mode == Callable {
        value := source.f(index);
      } else {
        if |remaining| > 0 {
          value := remaining[0];
          remaining := remaining[1..];
        } else {
          value := 0.0;
        }
      }
      currentPowerMw := Max(0.0, value);
      index := index + 1;
      p := currentPowerMw;
    }
  }

  /** The constructor with its error path: an unsupported source is refused, any other gives a plant at
      step 0. */
  method Create(name: string, source: ProfileSource) returns (r: Result<SolarPlant, string>)
    ensures r.Err? <==> source.Unsupported?
    ensures r.Ok? ==> fresh(r.value) && r.value.Valid() && r.value.source == source && r.value.index == 0
  {
    var mode := SelectMode(source);
    if mode.Err? {
      return Err(mode.error);
    }
    var plant := new SolarPlant(name, source);
    return Ok(plant);
  }
}
