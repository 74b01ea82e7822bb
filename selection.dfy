/** The per-device selection rules every fleet script repeats: the target address falls back from
    `host` to `id`, and a device's program list falls back to the shared list only when its
    `programs` key is absent. */
module Selection {
  import opened PyValues

  /** `device.get(key)`: the stored value, None for a missing key. */
  function Field(d: Dict, key: string): Value {
    OrNone(Get(d, key))
  }

  /** `device.get("host") or device.get("id")` */
  function Target(d: Dict): (r: Value)
    ensures Truthy(r) <==> Truthy(Field(d, "host")) || Truthy(Field(d, "id"))
    ensures Truthy(Field(d, "host")) ==> r == Field(d, "host")
    ensures !Truthy(Field(d, "host")) ==> r == Field(d, "id")
  {
    Or(Field(d, "host"), Field(d, "id"))
  }

  /** `device.get("programs", shared_programs)`: a present key wins even when its value is empty
      or None. */
  function Programs(d: Dict, shared: seq<string>): (r: Value)
    ensures HasKey(d, "programs") ==> r == Field(d, "programs")
    ensures !HasKey(d, "programs") ==> r == StrList(shared)
  {
    GetOr(d, "programs", StrList(shared))
  }

  /** A field holding text or nothing, as the `Optional[str]` annotations on `id` and `host` say. */
  predicate TextOrNone(d: Dict, key: string) {
    Field(d, key).PyNone? || Field(d, key).PyStr?
  }
}
