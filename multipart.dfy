/** The multipart bodies the sign-up forms post: one text part per form entry, in the
    order `Object.entries` reports them, and a single `file` part holding the chosen
    image or an empty placeholder blob. */
module Multipart {
  import opened Wrappers
  import opened Text
  import opened Record
  import opened Http

  /** A browser `FormData` being filled by `append`. */
  class FormData {
    var parts: seq<Part>

    constructor()
      ensures parts == []
    {
      parts := [];
    }

    /** `formData.append(name, value)` with a string value. */
    method Append(name: string, value: string)
      modifies this
      ensures parts == old(parts) + [TextPart(name, value)]
    {
      parts := parts + [TextPart(name, value)];
    }

    /** `formData.append(name, blob[, filename])`. */
    method AppendFile(name: string, upload: Upload)
      modifies this
      ensures parts == old(parts) + [FilePart(name, upload)]
    {
      parts := parts + [FilePart(name, upload)];
    }

    /** `Object.entries(form).forEach(([key, value]) => formData.append(key, ...))`:
        the keys in `normalised` have their comma-separated list tidied first. */
    method AppendEntries(form: Entries, normalised: set<string>)
      modifies this
      ensures parts == old(parts) + EntryParts(form, normalised)
    {
      for i := 0 to |form|
        invariant parts == old(parts) + EntryParts(form[..i], normalised)
      {
        var value := if form[i].key in normalised then NormaliseList(form[i].value) else form[i].value;
        EntryPartsStep(form, i, normalised);
        Append(form[i].key, value);
      }
      assert form[..|form|] == form;
    }
  }

  /** One more entry adds its text part at the end. */
  lemma EntryPartsStep(form: Entries, i: nat, normalised: set<string>)
    requires i < |form|
    ensures EntryParts(form[..i + 1], normalised)
      == EntryParts(form[..i], normalised) + [TextPart(form[i].key, SentValue(form[i], normalised))]
  {
    assert form[..i + 1] == form[..i] + [form[i]];
    EntryPartsAppend(form[..i], form[i], normalised);
  }

  // ---------------------------------------------------------------------------
  // The `subjects` list of the professor form: value.split(",").map(s => s.trim()).join(",")

  /** Each piece trimmed. */
  function TrimAll(pieces: seq<string>): (r: seq<string>)
    ensures |r| == |pieces|
    ensures forall i :: 0 <= i < |pieces| ==> r[i] == Trim(pieces[i])
  {
    seq(|pieces|, i requires 0 <= i < |pieces| => Trim(pieces[i]))
  }

  /** The comma-separated list with white space trimmed around every item. */
  function NormaliseList(s: string): string {
    Join(TrimAll(Split(s, ',')), ',')
  }

  /** The normalised list has the same items, in the same order, each trimmed. */
  lemma NormaliseListItems(s: string)
    ensures Split(NormaliseList(s), ',') == TrimAll(Split(s, ','))
  {
    var pieces := Split(s, ',');
    var trimmed := TrimAll(pieces);
    forall k | 0 <= k < |trimmed| ensures ',' !in trimmed[k] {
      TrimKeepsCharacters(pieces[k], ',');
    }
    SplitJoin(trimmed, ',');
  }

  /** Normalising keeps the number of comma-separated segments, and hence of commas. */
  lemma NormaliseKeepsSegments(s: string)
    ensures |Split(NormaliseList(s), ',')| == |Split(s, ',')|
    ensures Count(NormaliseList(s), ',') == Count(s, ',')
  {
    NormaliseListItems(s);
    SplitLength(s, ',');
    SplitLength(NormaliseList(s), ',');
  }

  /** Normalising a second time changes nothing. */
  lemma NormaliseIdempotent(s: string)
    ensures NormaliseList(NormaliseList(s)) == NormaliseList(s)
  {
    var items := TrimAll(Split(s, ','));
    NormaliseListItems(s);
    assert TrimAll(items) == items by {
      forall k | 0 <= k < |items| ensures Trim(items[k]) == items[k] {
        TrimIdempotent(Split(s, ',')[k]);
      }
    }
  }

  // ---------------------------------------------------------------------------
  // Payloads

  /** The value sent for one form entry. */
  function SentValue(e: Entry, normalised: set<string>): string {
    if e.key in normalised then NormaliseList(e.value) else e.value
  }

  /** The text parts appended for the form's entries, in order. */
  function EntryParts(form: Entries, normalised: set<string>): (r: seq<Part>)
    ensures |r| == |form|
    ensures forall i :: 0 <= i < |form| ==> r[i] == TextPart(form[i].key, SentValue(form[i], normalised))
  {
    seq(|form|, i requires 0 <= i < |form| => TextPart(form[i].key, SentValue(form[i], normalised)))
  }

  lemma EntryPartsAppend(form: Entries, e: Entry, normalised: set<string>)
    ensures EntryParts(form + [e], normalised) == EntryParts(form, normalised) + [TextPart(e.key, SentValue(e, normalised))]
  {
  }

  /** The content of the `file` part: the chosen image, or an empty blob under `placeholder`. */
  function FileUpload(image: Option<File>, placeholder: string): Upload {
    if image.Some? then Chosen(image.value) else Placeholder(placeholder)
  }

  /** The body of the sign-up forms: entries first, then the one `file` part. */
  function Payload(form: Entries, normalised: set<string>, upload: Upload): seq<Part> {
    EntryParts(form, normalised) + [FilePart("file", upload)]
  }

  /** The name of a part. */
  function PartName(p: Part): string {
    match p
    case TextPart(n, _) => n
    case FilePart(n, _) => n
  }

  /** The part names in order (`Array.from(formData.keys())`). */
  function Names(parts: seq<Part>): (r: seq<string>)
    ensures |r| == |parts|
    ensures forall i :: 0 <= i < |parts| ==> r[i] == PartName(parts[i])
  {
    seq(|parts|, i requires 0 <= i < |parts| => PartName(parts[i]))
  }

  /** `formData.get(name)`: the first part with that name. */
  function FormGet(parts: seq<Part>, name: string): Option<Part> {
    if |parts| == 0 then None
    else if PartName(parts[0]) == name then Some(parts[0])
    else FormGet(parts[1..], name)
  }

  /** How many file parts the body holds. */
  function FileCount(parts: seq<Part>): nat {
    if |parts| == 0 then 0 else (if parts[0].FilePart? then 1 else 0) + FileCount(parts[1..])
  }

  lemma {:induction false} FileCountConcat(a: seq<Part>, b: seq<Part>)
    ensures FileCount(a + b) == FileCount(a) + FileCount(b)
  {
    if |a| > 0 {
      FileCountConcat(a[1..], b);
      assert (a + b)[1..] == a[1..] + b;
    } else {
      assert a + b == b;
    }
  }

  lemma {:induction false} NoFileInEntries(form: Entries, normalised: set<string>)
    ensures FileCount(EntryParts(form, normalised)) == 0
  {
    if |form| > 0 {
      NoFileInEntries(form[1..], normalised);
      assert EntryParts(form, normalised)[1..] == EntryParts(form[1..], normalised);
    }
  }

  /** `formData.get` finds the part at the first position carrying that name. */
  lemma {:induction false} FormGetAt(parts: seq<Part>, i: nat)
    requires i < |parts|
    requires forall j :: 0 <= j < i ==> PartName(parts[j]) != PartName(parts[i])
    ensures FormGet(parts, PartName(parts[i])) == Some(parts[i])
  {
    if i > 0 {
      FormGetAt(parts[1..], i - 1);
    }
  }

  /** The body's part names are the form's keys in order, then "file". */
  lemma PayloadNames(form: Entries, normalised: set<string>, upload: Upload)
    ensures Names(Payload(form, normalised, upload)) == Keys(form) + ["file"]
  {
    var p := Payload(form, normalised, upload);
    assert forall i :: 0 <= i < |form| ==> Names(p)[i] == form[i].key;
  }

  /** Every entry is sent as a text part under its own key, with its value verbatim
      unless its key is normalised. */
  lemma PayloadFields(form: Entries, normalised: set<string>, upload: Upload)
    requires UniqueKeys(form)
    ensures forall i :: 0 <= i < |form| ==>
      FormGet(Payload(form, normalised, upload), form[i].key) == Some(TextPart(form[i].key, SentValue(form[i], normalised)))
  {
    var p := Payload(form, normalised, upload);
    forall i | 0 <= i < |form|
      ensures FormGet(p, form[i].key) == Some(TextPart(form[i].key, SentValue(form[i], normalised)))
    {
      FormGetAt(p, i);
    }
  }

  /** Exactly one part is a file, and it is the `file` part with the given upload. */
  lemma PayloadSingleFile(form: Entries, normalised: set<string>, upload: Upload)
    requires "file" !in Keys(form)
    ensures FormGet(Payload(form, normalised, upload), "file") == Some(FilePart("file", upload))
    ensures FileCount(Payload(form, normalised, upload)) == 1
  {
    var p := Payload(form, normalised, upload);
    assert forall j :: 0 <= j < |form| ==> PartName(p[j]) == form[j].key;
    FormGetAt(p, |form|);
    FileCountConcat(EntryParts(form, normalised), [FilePart("file", upload)]);
    NoFileInEntries(form, normalised);
  }

  /** The `file` part carries the chosen image when there is one, and otherwise the placeholder. */
  lemma FileUploadChoice(image: Option<File>, placeholder: string)
    ensures FileUpload(image, placeholder).Chosen? <==> image.Some?
    ensures image.Some? ==> FileUpload(image, placeholder).file == image.value
    ensures image.None? ==> FileUpload(image, placeholder).filename == placeholder
  {
  }
}
