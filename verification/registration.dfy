/** The registry of truck numbers as pure functions: what one truck
    construction does to the set of used numbers, and what a sequence of
    constructions does. The `Trucks.NewTruck` method is specified by these. */
module Registration {
  import opened Cargo

  /** One construction: a number already in use is refused with
      `ValueAlreadyUsed`; otherwise it is claimed and the registry grows. */
  function Register(used: set<string>, number: string): (r: Result<set<string>>)
    ensures r.Err? <==> number in used
    ensures r.Err? ==> r.error == ValueAlreadyUsed
    ensures r.Ok? ==> used < r.value && r.value - used == {number}
  {
    if number in used then Err(ValueAlreadyUsed) else Ok(used + {number})
  }

  /** The registry after one construction, whether it succeeded or not. */
  function RegistryAfter(used: set<string>, number: string): (r: set<string>)
    ensures used <= r && number in r
    ensures r - used <= {number}
  {
    match Register(used, number)
    case Ok(u) => u
    case Err(_) => used
  }

  /** For each number of a sequence of constructions, whether that
      construction succeeded. */
  function Admitted(used: set<string>, numbers: seq<string>): (r: seq<bool>)
    ensures |r| == |numbers|
    decreases |numbers|
  {
    if numbers == [] then []
    else [Register(used, numbers[0]).Ok?] + Admitted(RegistryAfter(used, numbers[0]), numbers[1..])
  }

  /** The registry after a sequence of constructions. */
  function Registered(used: set<string>, numbers: seq<string>): (r: set<string>)
    ensures forall n :: n in r <==> n in used || n in numbers
    decreases |numbers|
  {
    if numbers == [] then used else Registered(RegistryAfter(used, numbers[0]), numbers[1..])
  }

  /** The registry only grows. */
  lemma RegistryOnlyGrows(used: set<string>, numbers: seq<string>)
    ensures used <= Registered(used, numbers)
  {
  }

  /** A construction in a sequence succeeds exactly when its number was
      neither in the registry at the start nor used by an earlier construction. */
  lemma {:induction false} AdmittedIffUnused(used: set<string>, numbers: seq<string>, i: nat)
    requires i < |numbers|
    ensures Admitted(used, numbers)[i] <==> numbers[i] !in used && numbers[i] !in numbers[..i]
    decreases i
  {
    if i > 0 {
      AdmittedIffUnused(RegistryAfter(used, numbers[0]), numbers[1..], i - 1);
      assert numbers[..i] == [numbers[0]] + numbers[1..][..i - 1];
    }
  }

  /** Once a number has been used, every later construction with it fails. */
  lemma LaterReuseFails(used: set<string>, numbers: seq<string>, i: nat, j: nat)
    requires i < j < |numbers| && numbers[i] == numbers[j]
    ensures !Admitted(used, numbers)[j]
  {
    AdmittedIffUnused(used, numbers, j);
    assert numbers[..j][i] == numbers[j];
  }
}
