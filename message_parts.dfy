/**
 * The MIME part tree of a Gmail message payload and the attachment checks
 * over it. A part is an attachment when it has both a non-empty file name
 * and a non-empty `body.attachmentId`; an absent field is the empty string,
 * which Python's truthiness treats the same way as a missing key.
 */
module MessageParts {

  datatype Header = Header(name: string, value: string)

  datatype Part = Part(headers: seq<Header>, filename: string, attachmentId: string, parts: seq<Part>)

  /** The payload of a message that has none: no headers, no parts. */
  const EmptyPart := Part([], "", "", [])

  predicate IsAttachment(p: Part) {
    p.filename != "" && p.attachmentId != ""
  }

  /**
   * The attachments strictly below `p`, in the order a depth-first walk of
   * the children meets them (a child before its own descendants).
   */
  function Attachments(p: Part): (r: seq<Part>)
    ensures forall i :: 0 <= i < |r| ==> IsAttachment(r[i])
    decreases p, 1
  {
    AttachmentsFrom(p, 0)
  }

  /** The attachments among `p.parts[i..]` and below them. */
  function AttachmentsFrom(p: Part, i: nat): (r: seq<Part>)
    requires i <= |p.parts|
    ensures forall k :: 0 <= k < |r| ==> IsAttachment(r[k])
    decreases p, 0, |p.parts| - i
  {
    if i == |p.parts| then []
    else
      var child := p.parts[i];
      (if IsAttachment(child) then [child] else []) + Attachments(child) + AttachmentsFrom(p, i + 1)
  }

  /** `_has_attachments`: some child is an attachment or has one below it. */
  predicate HasAttachments(p: Part)
    decreases p, 1
  {
    HasAttachmentsFrom(p, 0)
  }

  predicate HasAttachmentsFrom(p: Part, i: nat)
    requires i <= |p.parts|
    decreases p, 0, |p.parts| - i
  {
    if i == |p.parts| then false
    else IsAttachment(p.parts[i]) || HasAttachments(p.parts[i]) || HasAttachmentsFrom(p, i + 1)
  }

  /** `_has_attachments` is true exactly when the tree holds at least one attachment. */
  lemma {:induction false} HasAttachmentsIffSome(p: Part)
    ensures HasAttachments(p) <==> |Attachments(p)| > 0
    decreases p, 1
  {
    HasAttachmentsFromIffSome(p, 0);
  }

  lemma {:induction false} HasAttachmentsFromIffSome(p: Part, i: nat)
    requires i <= |p.parts|
    ensures HasAttachmentsFrom(p, i) <==> |AttachmentsFrom(p, i)| > 0
    decreases p, 0, |p.parts| - i
  {
    if i < |p.parts| {
      HasAttachmentsIffSome(p.parts[i]);
      HasAttachmentsFromIffSome(p, i + 1);
    }
  }

  /**
   * `_count_attachments`: a loop over the children adding one for each
   * attachment child and the count below each child.
   */
  method CountAttachments(p: Part) returns (count: nat)
    ensures count == |Attachments(p)|
    decreases p
  {
    count := 0;
    var i := 0;
    while i < |p.parts|
      invariant 0 <= i <= |p.parts|
      invariant count + |AttachmentsFrom(p, i)| == |Attachments(p)|
    {
      var child := p.parts[i];
      if IsAttachment(child) {
        count := count + 1;
      }
      var below := CountAttachments(child);
      count := count + below;
      i := i + 1;
    }
  }
}
