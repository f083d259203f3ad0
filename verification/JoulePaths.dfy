// The joule reader's cache of sensor paths (wfey_hwmon.c, wfey_hwmon_joules_cache_path).
module JoulePaths {
  import opened SensorTable
  import opened SensorLabels

  /** One directory below the hwmon root: its name file, if readable, and its energy label files. */
  datatype Dir = Dir(dirname: seq<Byte>, name: Option<seq<Byte>>, energy: map<nat, seq<Byte>>)

  /** The path of energy<number>_input below a directory. */
  datatype Path = Path(dirname: seq<Byte>, number: nat)

  /** "altra_hwmon" */
  const DRIVER: seq<Byte> := [97, 108, 116, 114, 97, 95, 104, 119, 109, 111, 110]

  predicate IsDriver(d: Dir) {
    (d.dirname == [] || d.dirname[0] != 46) && d.name.Some? && Strip(d.name.value, DRIVER).Some?
  }

  /** The label with the core's path number names that core. */
  predicate Answers(d: Dir, core: nat) {
    core + 1 in d.energy && ScanLabel(d.energy[core + 1]) == Some(core)
  }

  /** Only the first directory of the driver is asked. */
  predicate FirstDriver(dirs: seq<Dir>, i: nat) {
    i < |dirs| && IsDriver(dirs[i]) && forall j :: 0 <= j < i ==> !IsDriver(dirs[j])
  }

  class Cache {
    const paths: array<Option<Path>>

    constructor (cpus: nat)
      ensures fresh(paths) && paths[..] == seq(cpus, _ => None)
    {
      paths := new Option<Path>[cpus](_ => None);
    }

    method CachePath(core: nat, dirs: seq<Dir>)
      requires core < paths.Length
      modifies paths
      ensures forall k :: 0 <= k < paths.Length && k != core ==> paths[k] == old(paths[k])
      ensures old(paths[core]).Some? ==> paths[core] == old(paths[core])
      ensures old(paths[core]).None? ==>
                forall i: nat :: FirstDriver(dirs, i) ==>
                  paths[core] == if Answers(dirs[i], core) then Some(Path(dirs[i].dirname, core + 1)) else None
      ensures old(paths[core]).None? && (forall i :: 0 <= i < |dirs| ==> !IsDriver(dirs[i])) ==> paths[core].None?
    {
      if paths[core].Some? {
        return;
      }
      for i := 0 to |dirs|
        invariant forall j :: 0 <= j < i ==> !IsDriver(dirs[j])
        invariant paths[..] == old(paths[..])
      {
        var d := dirs[i];
        if d.dirname != [] && d.dirname[0] == 46 {
          continue;
        }
        if d.name.None? {
          continue;
        }
        if Strip(d.name.value, DRIVER).Some? {
          assert forall k: nat :: FirstDriver(dirs, k) ==> k == i;
          var n := core + 1;
          if n !in d.energy {
            return;
          }
          var ln := ScanLabel(d.energy[n]);
          if ln.None? || ln.value != core {
            return;
          }
          paths[core] := Some(Path(d.dirname, n));
          return;
        }
      }
    }
  }

  /** The sensors of the first energy metric of an image. */
  function FirstEnergyItems(img: seq<Byte>): seq<Item> {
    var r := FirstEnergy(img, 8, CountAt(img));
    if r.Some? && MetricAt(img, r.value).Some? then MetricAt(img, r.value).value.items else []
  }

  /** The label files that the driver's first energy channels stand behind: channel c is energy<c+1>. */
  predicate Serves(d: Dir, img: seq<Byte>) {
    && IsDriver(d)
    && forall c :: 0 <= c < |FirstEnergyItems(img)| && c < |ItemsOf(Metrics(img), Energy)| ==>
         c + 1 in d.energy && d.energy[c + 1] == ItemsOf(Metrics(img), Energy)[c].text + [10]
  }

  /** With the driver behind the directory and "Core Energy" its first energy metric, every core
      below that metric's count is found. */
  lemma EveryCoreAnswered(d: Dir, img: seq<Byte>, core: nat)
    requires TableAccepted(img) && Serves(d, img) && core < |FirstEnergyItems(img)|
    requires NameAt(img, FirstEnergy(img, 8, CountAt(img)).value) == CORE_ENERGY
    ensures Answers(d, core)
  {
    CoresFindTheirLabels(img, core);
  }
}
