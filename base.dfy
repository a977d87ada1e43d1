/** Shared vocabulary of the model: optional and fallible values, the outcome
    of Rust code that may panic, bytes, and filesystem paths. */
module Base {

  datatype Option<+T> = None | Some(value: T)

  datatype Result<+T, +E> = Ok(value: T) | Err(error: E)

  /** What a piece of Rust code does when it may call `expect`: it either
      finishes with a value or panics with the message given to `expect`. */
  datatype Run<+T> = Done(value: T) | Panic(message: string)

  type byte = x: int | 0 <= x < 0x100

  type u16 = x: int | 0 <= x < 0x1_0000

  type u32 = x: int | 0 <= x < 0x1_0000_0000

  /** An absolute path, as the list of its components below the root:
      `/tmp/arma_bench` is `["tmp", "arma_bench"]`. Joining a single
      component appends it. */
  type Path = seq<string>

  /** `root` is `p` or one of its ancestors. */
  predicate Under(root: Path, p: Path)
  {
    |root| <= |p| && p[..|root|] == root
  }

  /** Every ancestor of `p` (excluding the root) together with `p` itself:
      the directories `create_dir_all(p)` makes sure exist. */
  function Ancestry(p: Path): set<Path>
  {
    set i | 1 <= i <= |p| :: p[..i]
  }

  /** The textual form of a path, as `to_string_lossy` prints it. */
  function PathString(p: Path): (s: string)
    ensures |p| > 0 ==> |s| > 0 && s[0] == '/'
  {
    if |p| == 0 then "/" else Components(p)
  }

  function Components(p: Path): (s: string)
    ensures |p| > 0 ==> |s| > 0 && s[0] == '/'
  {
    if |p| == 0 then "" else Components(p[..|p| - 1]) + "/" + p[|p| - 1]
  }
}
