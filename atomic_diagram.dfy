/** The atomic diagram's model of an atom: electrons poured greedily into
    shells of fixed capacity, and the labelled particles of the nucleus. */
module AtomicDiagram {
  import opened Common
  import opened QuizTypes

  const ShellCapacities: seq<nat> := [2, 8, 18, 32, 32, 18, 8]

  /** One drawn shell: its orbit radius and how many electrons it holds. */
  datatype Shell = Shell(radius: int, electrons: int)

  function SumElectrons(shells: seq<Shell>): int {
    if shells == [] then 0 else SumElectrons(shells[..|shells| - 1]) + shells[|shells| - 1].electrons
  }

  /** Total capacity of the first `k` shells. */
  function CapacityUpTo(k: nat): nat
    requires k <= |ShellCapacities|
  {
    if k == 0 then 0 else CapacityUpTo(k - 1) + ShellCapacities[k - 1]
  }

  /** The seven capacities add up to 118, and no prefix exceeds that. */
  lemma {:induction false} CapacityTotal()
    ensures CapacityUpTo(|ShellCapacities|) == 118
    ensures forall k :: 0 <= k <= |ShellCapacities| ==> CapacityUpTo(k) <= 118
  {
    assert CapacityUpTo(1) == 2;
    assert CapacityUpTo(2) == 10;
    assert CapacityUpTo(3) == 28;
    assert CapacityUpTo(4) == 60;
    assert CapacityUpTo(5) == 92;
    assert CapacityUpTo(6) == 110;
    assert CapacityUpTo(7) == 118;
  }

  function Min(a: int, b: int): int {
    if a <= b then a else b
  }

  function Max(a: int, b: int): int {
    if a >= b then a else b
  }

  /** `getElectronShells`: fill the shells in order, each up to its
      capacity, while electrons remain. */
  method GetElectronShells(atomicNumber: int) returns (shells: seq<Shell>)
    ensures |shells| <= |ShellCapacities|
    ensures forall i :: 0 <= i < |shells| ==>
      shells[i].radius == 20 + 15 * i && 1 <= shells[i].electrons <= ShellCapacities[i]
    ensures forall i :: 0 <= i < |shells| - 1 ==> shells[i].electrons == ShellCapacities[i]
    ensures SumElectrons(shells) == Min(Max(atomicNumber, 0), 118)
    ensures atomicNumber <= 0 ==> shells == []
  {
    CapacityTotal();
    shells := [];
    var remaining := atomicNumber;
    var i := 0;
    while i < |ShellCapacities| && remaining > 0
      invariant 0 <= i <= |ShellCapacities| && |shells| == i
      invariant forall j :: 0 <= j < i ==>
        shells[j].radius == 20 + 15 * j && 1 <= shells[j].electrons <= ShellCapacities[j]
      invariant forall j :: 0 <= j < i - 1 ==> shells[j].electrons == ShellCapacities[j]
      invariant remaining > 0 ==> forall j :: 0 <= j < i ==> shells[j].electrons == ShellCapacities[j]
      invariant atomicNumber <= 0 ==> i == 0
      invariant remaining == atomicNumber - SumElectrons(shells)
      invariant i > 0 ==> remaining >= 0
      invariant remaining > 0 ==> SumElectrons(shells) == CapacityUpTo(i)
      invariant SumElectrons(shells) <= CapacityUpTo(i)
    {
      var electronsInShell := Min(remaining, ShellCapacities[i]);
      assert (shells + [Shell(20 + i * 15, electronsInShell)])[..i] == shells;
      shells := shells + [Shell(20 + i * 15, electronsInShell)];
      remaining := remaining - electronsInShell;
      i := i + 1;
    }
  }

  datatype ParticleKind = Proton | Neutron

  /** A nucleus particle with its label; the drawing coordinates are not modelled. */
  datatype Particle = Particle(kind: ParticleKind, id: string)

  function ProtonId(i: nat): string {
    "proton-" + NatToString(i)
  }

  function NeutronId(i: nat): string {
    "neutron-" + NatToString(i)
  }

  /** `generateNucleusParticles`: the protons, then the neutrons, each numbered from 0. */
  method GenerateNucleusParticles(isotope: Isotope) returns (particles: seq<Particle>)
    ensures |particles| == Max(isotope.atomicNumber, 0) + Max(isotope.neutrons, 0)
    ensures forall i :: 0 <= i < Max(isotope.atomicNumber, 0) ==>
      particles[i] == Particle(Proton, ProtonId(i))
    ensures forall i :: 0 <= i < Max(isotope.neutrons, 0) ==>
      particles[Max(isotope.atomicNumber, 0) + i] == Particle(Neutron, NeutronId(i))
    ensures forall i, j :: 0 <= i < j < |particles| ==> particles[i].id != particles[j].id
  {
    particles := [];
    var i := 0;
    while i < isotope.atomicNumber
      invariant 0 <= i <= Max(isotope.atomicNumber, 0) && |particles| == i
      invariant forall j :: 0 <= j < i ==> particles[j] == Particle(Proton, ProtonId(j))
    {
      particles := particles + [Particle(Proton, ProtonId(i))];
      i := i + 1;
    }
    var protons := |particles|;
    i := 0;
    while i < isotope.neutrons
      invariant 0 <= i <= Max(isotope.neutrons, 0) && |particles| == protons + i
      invariant forall j :: 0 <= j < protons ==> particles[j] == Particle(Proton, ProtonId(j))
      invariant forall j :: 0 <= j < i ==> particles[protons + j] == Particle(Neutron, NeutronId(j))
    {
      particles := particles + [Particle(Neutron, NeutronId(i))];
      i := i + 1;
    }
    ParticleIdsDistinct(protons, i, particles);
  }

  lemma {:induction false} PrefixedIdsInjective(prefix: string, m: nat, n: nat)
    requires prefix + NatToString(m) == prefix + NatToString(n)
    ensures m == n
  {
    assert NatToString(m) == (prefix + NatToString(m))[|prefix|..];
    assert NatToString(n) == (prefix + NatToString(n))[|prefix|..];
    NatToStringInjective(m, n);
  }

  /** The labels of a nucleus's particles are pairwise distinct. */
  lemma {:induction false} ParticleIdsDistinct(z: nat, n: nat, particles: seq<Particle>)
    requires |particles| == z + n
    requires forall i :: 0 <= i < z ==> particles[i] == Particle(Proton, ProtonId(i))
    requires forall i :: 0 <= i < n ==> particles[z + i] == Particle(Neutron, NeutronId(i))
    ensures forall i, j :: 0 <= i < j < |particles| ==> particles[i].id != particles[j].id
  {
    forall i, j | 0 <= i < j < |particles| ensures particles[i].id != particles[j].id {
      if j < z {
        if ProtonId(i) == ProtonId(j) {
          PrefixedIdsInjective("proton-", i, j);
        }
      } else if i >= z {
        if NeutronId(i - z) == NeutronId(j - z) {
          PrefixedIdsInjective("neutron-", i - z, j - z);
        }
      } else {
        assert particles[i].id == ProtonId(i) && particles[j].id == NeutronId(j - z);
        assert particles[i].id[0] == 'p' && particles[j].id[0] == 'n';
      }
    }
  }
}
