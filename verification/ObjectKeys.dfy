/** backend/app/utils/object_keys.py: where a job's artifacts live in object storage. */
module ObjectKeys {
  import opened PythonText

  predicate SlashFree(text: string) {
    '/' !in text
  }

  /** The offset just after the last slash. */
  function AfterLastSlash(path: string): (n: nat)
    ensures n <= |path| && SlashFree(path[n..])
    ensures n > 0 ==> path[n - 1] == '/'
  {
    if path == "" || path[|path| - 1] == '/' then |path| else AfterLastSlash(path[..|path| - 1])
  }

  /** `Path(path).name`: the last component that is neither empty nor ".", or "" when there is none. */
  function PathName(path: string): (name: string)
    ensures SlashFree(name)
    decreases |path|
  {
    var n := AfterLastSlash(path);
    if path[n..] != "" && path[n..] != "." then path[n..]
    else if n == 0 then ""
    else PathName(path[..n - 1])
  }

  function Replace(text: string, from: char, to: char): (replaced: string)
    ensures |replaced| == |text|
    ensures forall i | 0 <= i < |text| :: replaced[i] == if text[i] == from then to else text[i]
  {
    seq(|text|, i requires 0 <= i < |text| => if text[i] == from then to else text[i])
  }

  function SafeFilename(originalFilename: string): string {
    var base := Strip(PathName(originalFilename));
    if base == "" then "video.bin" else Replace(Replace(base, '/', '_'), '\\', '_')
  }

  /** Everything a job stores in object storage sits below this prefix. */
  function KeyPrefix(videoId: string): string {
    "videos/" + videoId + "/"
  }

  function RawObjectKey(videoId: string, originalFilename: string): string {
    KeyPrefix(videoId) + "raw/" + SafeFilename(originalFilename)
  }

  function ProcessedObjectKey(videoId: string): string {
    KeyPrefix(videoId) + "processed/" + videoId + ".mp4"
  }

  function ThumbnailObjectKey(videoId: string): string {
    KeyPrefix(videoId) + "thumbnails/" + videoId + ".jpg"
  }

  lemma KeysSpelledOut(videoId: string, originalFilename: string)
    ensures RawObjectKey(videoId, originalFilename)
         == "videos/" + videoId + "/raw/" + SafeFilename(originalFilename)
    ensures ProcessedObjectKey(videoId) == "videos/" + videoId + "/processed/" + videoId + ".mp4"
    ensures ThumbnailObjectKey(videoId) == "videos/" + videoId + "/thumbnails/" + videoId + ".jpg"
  {
    assert "/" + "raw/" == "/raw/" && "/" + "processed/" == "/processed/" && "/" + "thumbnails/" == "/thumbnails/";
  }

  /** Whatever file name a client sends, the stored name is one non-empty path segment. */
  lemma SafeFilenameIsOneSegment(originalFilename: string)
    ensures SafeFilename(originalFilename) != ""
    ensures SlashFree(SafeFilename(originalFilename)) && '\\' !in SafeFilename(originalFilename)
  {
    assert SlashFree("video.bin") && '\\' !in "video.bin";
  }

  lemma {:induction false} SlashesBefore(path: string, k: nat)
    requires k <= |path| && SlashFree(path[k..])
    requires k > 0 ==> path[k - 1] == '/'
    ensures AfterLastSlash(path) == k
  {
    if k < |path| {
      var rest := path[..|path| - 1];
      assert path[k..] == rest[k..] + [path[|path| - 1]];
      SlashesBefore(rest, k);
    }
  }

  lemma PathNameOfFile(dir: string, name: string)
    requires name != "" && name != "." && SlashFree(name)
    ensures PathName(name) == name && PathName(dir + "/" + name) == name
  {
    assert name[0..] == name && (dir + "/" + name)[|dir| + 1..] == name;
    SlashesBefore(name, 0);
    SlashesBefore(dir + "/" + name, |dir| + 1);
  }

  lemma PathNameSkips(dir: string)
    ensures PathName("") == "" && PathName(dir + "/") == PathName(dir) && PathName(dir + "/.") == PathName(dir)
  {
    assert (dir + "/")[|dir| + 1..] == "" && (dir + "/")[..|dir|] == dir;
    SlashesBefore(dir + "/", |dir| + 1);
    assert (dir + "/.")[|dir| + 1..] == "." && (dir + "/.")[..|dir|] == dir;
    SlashesBefore(dir + "/.", |dir| + 1);
  }

  /** A client's file name is kept up to its backslashes, and the directories before it are dropped. */
  lemma FileNameIsKept(dir: string, name: string)
    requires name != "" && name != "." && SlashFree(name) && !IsSpace(name[0]) && !IsSpace(name[|name| - 1])
    ensures SafeFilename(name) == SafeFilename(dir + "/" + name) && |SafeFilename(name)| == |name|
    ensures forall i | 0 <= i < |name| :: SafeFilename(name)[i] == if name[i] == '\\' then '_' else name[i]
  {
    PathNameOfFile(dir, name);
    assert forall i | 0 <= i < |name| :: name[i] in name;
  }

  /** A path that ends in slashes and dots names its last proper component, and one without any gets the default. */
  lemma EmptyNamesGetTheDefault(dir: string)
    ensures SafeFilename(dir + "/") == SafeFilename(dir) && SafeFilename(dir + "/.") == SafeFilename(dir)
    ensures SafeFilename("") == "video.bin"
  {
    PathNameSkips(dir);
    assert Strip("") == "";
  }

  ghost predicate OwnKey(videoId: string, key: string) {
    KeyPrefix(videoId) <= key
  }

  lemma KeysAreOwn(videoId: string, filename: string)
    ensures OwnKey(videoId, RawObjectKey(videoId, filename))
    ensures OwnKey(videoId, ProcessedObjectKey(videoId)) && OwnKey(videoId, ThumbnailObjectKey(videoId))
  {
    assert RawObjectKey(videoId, filename) == KeyPrefix(videoId) + ("raw/" + SafeFilename(filename));
    assert ProcessedObjectKey(videoId) == KeyPrefix(videoId) + ("processed/" + videoId + ".mp4");
    assert ThumbnailObjectKey(videoId) == KeyPrefix(videoId) + ("thumbnails/" + videoId + ".jpg");
  }

  /** Two jobs never share a key: ids are UUIDs, so they contain no slash. */
  lemma OwnersAreDisjoint(a: string, b: string, key: string)
    requires SlashFree(a) && SlashFree(b)
    requires OwnKey(a, key) && OwnKey(b, key)
    ensures a == b
  {
    var n := 7;
    assert forall i | 0 <= i < |a| :: a[i] == key[n + i] by {
      assert forall i | 0 <= i < |a| :: KeyPrefix(a)[n + i] == a[i];
    }
    assert forall i | 0 <= i < |b| :: b[i] == key[n + i] by {
      assert forall i | 0 <= i < |b| :: KeyPrefix(b)[n + i] == b[i];
    }
    assert key[n + |a|] == KeyPrefix(a)[n + |a|] == '/';
    assert key[n + |b|] == KeyPrefix(b)[n + |b|] == '/';
    assert forall c <- a :: c != '/';
    assert forall c <- b :: c != '/';
  }

  /** The three kinds of key differ from one another for all ids, so the kinds never collide even when an operator
      configures one bucket for all of them. Within a kind, the key determines the id. */
  lemma KeysNeverCollide(a: string, b: string, f: string, g: string)
    requires SlashFree(a) && SlashFree(b)
    ensures RawObjectKey(a, f) == RawObjectKey(b, g) ==> a == b && SafeFilename(f) == SafeFilename(g)
    ensures ProcessedObjectKey(a) == ProcessedObjectKey(b) ==> a == b
    ensures ThumbnailObjectKey(a) == ThumbnailObjectKey(b) ==> a == b
    ensures RawObjectKey(a, f) != ProcessedObjectKey(b) && RawObjectKey(a, f) != ThumbnailObjectKey(b)
    ensures ProcessedObjectKey(a) != ThumbnailObjectKey(b)
  {
    KeysAreOwn(a, f);
    KeysAreOwn(b, g);
    var keysA := [RawObjectKey(a, f), ProcessedObjectKey(a), ThumbnailObjectKey(a)];
    var keysB := [RawObjectKey(b, g), ProcessedObjectKey(b), ThumbnailObjectKey(b)];
    if x, y :| 0 <= x < 3 && 0 <= y < 3 && keysA[x] == keysB[y] {
      OwnersAreDisjoint(a, b, keysA[x]);
      var n := |KeyPrefix(a)|;
      assert RawObjectKey(a, f)[n] == RawObjectKey(b, g)[n] == 'r';
      assert ProcessedObjectKey(a)[n] == ProcessedObjectKey(b)[n] == 'p';
      assert ThumbnailObjectKey(a)[n] == ThumbnailObjectKey(b)[n] == 't';
      assert RawObjectKey(a, f)[n + 4..] == SafeFilename(f) && RawObjectKey(b, g)[n + 4..] == SafeFilename(g);
    }
    assert keysA[0] == RawObjectKey(a, f) && keysA[1] == ProcessedObjectKey(a) && keysA[2] == ThumbnailObjectKey(a);
    assert keysB[0] == RawObjectKey(b, g) && keysB[1] == ProcessedObjectKey(b) && keysB[2] == ThumbnailObjectKey(b);
  }
}
