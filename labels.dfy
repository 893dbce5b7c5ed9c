/**
  Sidecar naming of the label-state tracker: the label file of an image is
  `<directory>/<image stem>.json`, and an image counts as labeled exactly
  when that file exists.
*/
module Labels {

  /** Joins a directory and a file name as POSIX `os.path.join` joins two parts. */
  function PathJoin(dir: string, name: string): string {
    if |name| > 0 && name[0] == '/' then name
    else if dir == "" || dir[|dir| - 1] == '/' then dir + name
    else dir + "/" + name
  }

  /** The label file for an image whose stem is `stem`, in directory `dir`. */
  function SidecarPath(dir: string, stem: string): string {
    PathJoin(dir, stem + ".json")
  }

  /**
    The label file is named `<stem>.json` and, unless that name is absolute,
    lies under the directory.
  */
  lemma SidecarPathShape(dir: string, stem: string)
    ensures var path, name := SidecarPath(dir, stem), stem + ".json";
            |name| <= |path| && path[|path| - |name|..] == name
            && (name[0] != '/' ==> |dir| <= |path| && path[..|dir|] == dir)
  {
    var path, name := SidecarPath(dir, stem), stem + ".json";
    if name[0] != '/' {
      if dir == "" || dir[|dir| - 1] == '/' {
        assert path == dir + name;
      } else {
        assert path == dir + "/" + name;
      }
    }
  }

  /** An image whose stem is `stem` is labeled: a label directory is set and the label file exists. */
  predicate IsLabeled(dir: string, stem: string, disk: set<string>) {
    dir != "" && SidecarPath(dir, stem) in disk
  }

  /** The rescan: the images among `paths` that are labeled. */
  function LabeledAmong(dir: string, stemOf: string -> string, paths: seq<string>, disk: set<string>): set<string> {
    set p | p in paths && IsLabeled(dir, stemOf(p), disk)
  }

  /** Scanning one more image adds it exactly when it is labeled. */
  lemma LabeledAmongSnoc(dir: string, stemOf: string -> string, paths: seq<string>, next: string, disk: set<string>)
    ensures LabeledAmong(dir, stemOf, paths + [next], disk)
         == LabeledAmong(dir, stemOf, paths, disk) + (if IsLabeled(dir, stemOf(next), disk) then {next} else {})
  {
    var extended := paths + [next];
    assert forall p :: p in extended <==> p in paths || p == next;
  }
}
