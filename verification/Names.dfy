/** Names of the objects the controller derives from a task, and the string
    facts that keep the objects of different tasks apart. */
module Names {

  /** A namespaced object name. */
  datatype Key = Key(ns: string, name: string)

  function PodKey(task: Key): Key {
    Key(task.ns, task.name + "-pod")
  }

  function SandboxKey(task: Key): Key {
    Key(task.ns, task.name + "-sandbox")
  }

  function CodeKey(task: Key): Key {
    Key(task.ns, task.name + "-code")
  }

  function PolicyKey(task: Key): Key {
    Key(task.ns, task.name + "-netpol")
  }

  /** The user-provided config map with image overrides. */
  function ProfilesKey(ns: string): Key {
    Key(ns, "agenttask-runtime-profiles")
  }

  predicate HasSuffix(s: string, suffix: string) {
    |suffix| <= |s| && s[|s| - |suffix|..] == suffix
  }

  lemma SuffixOfConcat(a: string, suffix: string)
    ensures HasSuffix(a + suffix, suffix)
    ensures (a + suffix)[..|a|] == a
  {
  }

  lemma ConcatInjective(a: string, b: string, suffix: string)
    requires a + suffix == b + suffix
    ensures a == b
  {
    assert |a| == |b|;
    SuffixOfConcat(a, suffix);
    SuffixOfConcat(b, suffix);
  }

  /** Different tasks have different pods, policies, code maps and sandboxes. */
  lemma DerivedNamesInjective(j: Key, k: Key)
    requires PodKey(j) == PodKey(k) || SandboxKey(j) == SandboxKey(k)
             || CodeKey(j) == CodeKey(k) || PolicyKey(j) == PolicyKey(k)
    ensures j == k
  {
    if PodKey(j) == PodKey(k) {
      ConcatInjective(j.name, k.name, "-pod");
    } else if SandboxKey(j) == SandboxKey(k) {
      ConcatInjective(j.name, k.name, "-sandbox");
    } else if CodeKey(j) == CodeKey(k) {
      ConcatInjective(j.name, k.name, "-code");
    } else {
      ConcatInjective(j.name, k.name, "-netpol");
    }
  }

  /** No sandbox shares its name with a pod, whatever the two tasks are called. */
  lemma SandboxIsNoPod(j: Key, k: Key)
    ensures SandboxKey(j) != PodKey(k)
  {
    var s, p := SandboxKey(j).name, PodKey(k).name;
    assert s[|s| - 1] == 'x';
    assert p[|p| - 1] == 'd';
  }
}
