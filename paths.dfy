/** File-system paths the core derives. `root` stands for the application
    directory, `path.join(__dirname, "..")`; `path.join` is modelled as
    joining with "/" for the plain names the core passes it. */
module Paths {

  /** `path.join(__dirname, "..", "data", "media", name)`. */
  function MediaPath(root: string, name: string): string {
    root + "/data/media/" + name
  }

  /** `path.join(__dirname, "..", "data", "thumbnail", `${jobId}.png`)`: the
      thumbnail sidecar a service writes. */
  function ThumbnailPath(root: string, jobId: string): string {
    root + "/data/thumbnail/" + jobId + ".png"
  }

  /** `data/thumbnail/${jobId}.png`: the same sidecar, relative to the
      working directory, as the registry deletes it when a job ends. */
  function ThumbnailFile(jobId: string): string {
    "data/thumbnail/" + jobId + ".png"
  }

  /** A name that `path.join` appends unchanged: not empty, not "." or "..",
      and free of separators and line breaks. */
  predicate PlainName(name: string) {
    name != "" && name != "." && name != ".." && '/' !in name && '\n' !in name
  }

  /** An application directory as `__dirname` yields it: absolute, one line. */
  predicate ValidRoot(root: string) {
    |root| > 0 && root[0] == '/' && '\n' !in root
  }
}
