/**
 The destination's upload handler (file-handler/file-handler.go): the file exists before its
 contents do.
 */
module FileHandler {
  import opened Storage

  const OK := 200
  const BAD_REQUEST := 400
  const NOT_ALLOWED := 405
  const SERVER_ERROR := 500

  datatype Upload = Upload(filename: string, content: string)

  /** Characters that differ only in case are folded to one.  Besides the two cases of each letter, the
      long s and the Kelvin sign fold to ASCII letters. */
  function Fold(c: char): char {
    if 'A' <= c <= 'Z' then c - 'A' + 'a'
    else if c == '\U{017F}' then 's'
    else if c == '\U{212A}' then 'k'
    else c
  }

  /** strings.EqualFold against a text `b` of ASCII letters. */
  predicate EqualFold(a: string, b: string) {
    |a| == |b| && forall i :: 0 <= i < |a| ==> Fold(a[i]) == Fold(b[i])
  }

  /** The two request methods, letter by letter. */
  lemma FoldedVerbs(a: string)
    ensures EqualFold(a, "POST") <==>
            |a| == 4 && a[0] in {'P', 'p'} && a[1] in {'O', 'o'} && a[2] in {'S', 's', '\U{017F}'} && a[3] in {'T', 't'}
    ensures EqualFold(a, "GET") <==> |a| == 3 && a[0] in {'G', 'g'} && a[1] in {'E', 'e'} && a[2] in {'T', 't'}
  {
    assert "POST" == ['P', 'O', 'S', 'T'] && "GET" == ['G', 'E', 'T'];
  }

  /** What the operations of one request amount to: `copied` is the length at which the copy broke
      off, if it did. */
  function OutcomeOf(form: Option<Upload>, openOk: bool, createOk: bool, copied: Option<nat>): Outcome {
    if form.None? || !openOk || !createOk then NotCreated
    else match copied case None => Stores case Some(b) => CopyFails(b)
  }

  class Handler {
    var dir: DestDir
    var created: seq<string>

    constructor ()
      ensures dir == map[] && created == []
    {
      dir, created := map[], [];
    }

    /** handleFile: a POST leaves what `Put` leaves and raises a create event exactly for a file that
        was created anew; every other request leaves the directory alone. */
    method HandleFile(verb: string, form: Option<Upload>, openOk: bool, createOk: bool, copied: Option<nat>)
      returns (status: int)
      modifies this
      ensures var out := OutcomeOf(form, openOk, createOk, copied);
              if EqualFold(verb, "POST") && form.Some? then
                && dir == Put(old(dir), form.value.filename, form.value.content, out)
                && created == old(created) +
                     (if out.Creates() && form.value.filename !in old(dir) then [form.value.filename] else [])
                && status == (if out.Stores? then OK else SERVER_ERROR)
              else
                && dir == old(dir) && created == old(created)
                && status == (if EqualFold(verb, "POST") then BAD_REQUEST
                              else if EqualFold(verb, "GET") then OK else NOT_ALLOWED)
      // a file that can be opened and created is stored, whole or up to where the copy broke off
      ensures EqualFold(verb, "POST") && form.Some? && openOk && createOk && copied.None? ==>
                && Get(dir, form.value.filename) == Some(Whole(form.value.content))
                && status == 200
      ensures EqualFold(verb, "POST") && form.Some? && openOk && createOk && copied.Some? ==>
                && Get(dir, form.value.filename) == Some(Truncated(FirstBytes(form.value.content, copied.value)))
                && status == 500
      // ... and announced if it is new
      ensures EqualFold(verb, "POST") && form.Some? && openOk && createOk ==>
                && created == old(created) +
                     (if form.value.filename in old(dir) then [] else [form.value.filename])
                && forall n :: n != form.value.filename ==> Get(dir, n) == Get(old(dir), n)
      // everything else leaves the directory alone
      ensures !EqualFold(verb, "POST") || form.None? || !openOk || !createOk ==>
                dir == old(dir) && created == old(created)
      ensures EqualFold(verb, "POST") && form.None? ==> status == 400
      ensures EqualFold(verb, "POST") && form.Some? && (!openOk || !createOk) ==> status == 500
      ensures EqualFold(verb, "GET") ==> status == 200
      ensures !EqualFold(verb, "POST") && !EqualFold(verb, "GET") ==> status == 405
    {
      if EqualFold(verb, "POST") {
        if form.None? {
          return BAD_REQUEST;
        }
        if !openOk {
          return SERVER_ERROR;
        }
        if !createOk {
          return SERVER_ERROR;
        }
        var name, content := form.value.filename, form.value.content;
        if name !in dir {
          created := created + [name];
        }
        dir := dir[name := Copying];
        if copied.Some? {
          dir := dir[name := Truncated(FirstBytes(content, copied.value))];
          return SERVER_ERROR;
        }
        dir := dir[name := Whole(content)];
        return OK;
      } else if EqualFold(verb, "GET") {
        return OK;
      }
      return NOT_ALLOWED;
    }
  }
}
