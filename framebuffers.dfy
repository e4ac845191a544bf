// Framebuffers: the attachment validation of the OpenGL ES 2 allocator
// (framebufferAllocate) and of the OpenGL 3 interface
// (framebufferAttachStorage), framebuffer deletion, and the guards of the
// single-attachment functions of the JOGL ES2 backend.  The driver is
// reduced to the values it answers (names, the completeness status, error
// codes, the currently bound framebuffer); the GL calls made are returned as
// a trace.

module Framebuffers {
  import opened Wrappers
  import opened GLConstants

  /** A framebuffer object.  Its deleted flag is set in place by the delete
      operations, so every holder of the object observes it. */
  class Framebuffer {
    const name: int
    var deleted: bool

    constructor(name: int)
      ensures this.name == name && !deleted
    {
      this.name := name;
      deleted := false;
    }
  }

  /** One entry of the attachment array: a colour texture at a colour
      attachment index, or a packed depth+stencil renderbuffer.  The deleted
      flags are those of the texture or renderbuffer at the time of the call. */
  datatype Attachment =
    | ColorAttachment(index: int, texture: int, textureDeleted: bool)
    | DepthStencilAttachment(renderbuffer: int, renderbufferDeleted: bool)

  datatype FramebufferCall =
    | GenFramebuffer
    | BindFramebuffer(name: int)
    | FramebufferTexture2D(point: int, target: int, texture: int)
    | FramebufferRenderbuffer(point: int, renderbuffer: int)
    | CheckFramebufferStatus
    | DeleteFramebuffer(name: int)

  // ---------------------------------------------------------------------
  // What a valid attachment array is, over its first n entries

  predicate IndicesInRange(atts: seq<Attachment>, n: nat, maxColor: int)
    requires n <= |atts|
  {
    forall j :: 0 <= j < n && atts[j].ColorAttachment? ==> 0 <= atts[j].index <= maxColor - 1
  }

  predicate SingleDepthStencil(atts: seq<Attachment>, n: nat)
    requires n <= |atts|
  {
    forall j, k :: 0 <= j < k < n && atts[j].DepthStencilAttachment? ==> !atts[k].DepthStencilAttachment?
  }

  predicate DistinctColorIndices(atts: seq<Attachment>, n: nat)
    requires n <= |atts|
  {
    forall j, k :: 0 <= j < k < n && atts[j].ColorAttachment? && atts[k].ColorAttachment?
                   ==> atts[j].index != atts[k].index
  }

  predicate IsDeleted(a: Attachment)
  {
    match a
    case ColorAttachment(_, _, d) => d
    case DepthStencilAttachment(_, d) => d
  }

  predicate NoneDeleted(atts: seq<Attachment>, n: nat)
    requires n <= |atts|
  {
    forall j :: 0 <= j < n ==> !IsDeleted(atts[j])
  }

  predicate HasColor(atts: seq<Attachment>)
  {
    exists j :: 0 <= j < |atts| && atts[j].ColorAttachment?
  }

  /** The checks framebufferAttachStorage makes on the first n attachments. */
  predicate GL3Attachable(atts: seq<Attachment>, n: nat, maxColor: int)
    requires n <= |atts|
  {
    IndicesInRange(atts, n, maxColor) && SingleDepthStencil(atts, n)
  }

  /** The checks framebufferAllocate makes on the first n attachments. */
  predicate ES2Attachable(atts: seq<Attachment>, n: nat, maxColor: int)
    requires n <= |atts|
  {
    GL3Attachable(atts, n, maxColor) && DistinctColorIndices(atts, n) && NoneDeleted(atts, n)
  }

  /** The attachment arrays framebufferAllocate accepts. */
  predicate ES2Acceptable(atts: seq<Attachment>, maxColor: int)
  {
    |atts| >= 1 && ES2Attachable(atts, |atts|, maxColor) && HasColor(atts)
  }

  // ---------------------------------------------------------------------
  // The GL calls that attach storage

  /** OpenGL ES 2 has no packed depth+stencil attachment point: the
      renderbuffer is attached to the depth and to the stencil point. */
  function CallsForES2(a: Attachment): seq<FramebufferCall>
  {
    match a
    case ColorAttachment(i, t, _) => [FramebufferTexture2D(GL_COLOR_ATTACHMENT0 + i, GL_TEXTURE_2D, t)]
    case DepthStencilAttachment(rb, _) =>
      [FramebufferRenderbuffer(GL_DEPTH_ATTACHMENT, rb), FramebufferRenderbuffer(GL_STENCIL_ATTACHMENT, rb)]
  }

  function CallsForGL3(a: Attachment): seq<FramebufferCall>
  {
    match a
    case ColorAttachment(i, t, _) => [FramebufferTexture2D(GL_COLOR_ATTACHMENT0 + i, GL_TEXTURE_2D, t)]
    case DepthStencilAttachment(rb, _) => [FramebufferRenderbuffer(GL_DEPTH_STENCIL_ATTACHMENT, rb)]
  }

  /** The calls for the first n attachments, in array order. */
  function AttachCallsES2(atts: seq<Attachment>, n: nat): seq<FramebufferCall>
    requires n <= |atts|
  {
    if n == 0 then [] else AttachCallsES2(atts, n - 1) + CallsForES2(atts[n - 1])
  }

  function AttachCallsGL3(atts: seq<Attachment>, n: nat): seq<FramebufferCall>
    requires n <= |atts|
  {
    if n == 0 then [] else AttachCallsGL3(atts, n - 1) + CallsForGL3(atts[n - 1])
  }

  // ---------------------------------------------------------------------
  // framebufferAllocate (OpenGL ES 2)

  /** Whether attachment i passes the checks framebufferAllocate makes on
      it, given the attachments before it. */
  predicate FitsES2(atts: seq<Attachment>, i: nat, maxColor: int)
    requires i < |atts|
  {
    match atts[i]
    case ColorAttachment(index, _, deleted) =>
      0 <= index <= maxColor - 1
      && (forall j :: 0 <= j < i && atts[j].ColorAttachment? ==> atts[j].index != index)
      && !deleted
    case DepthStencilAttachment(_, deleted) =>
      (forall j :: 0 <= j < i ==> !atts[j].DepthStencilAttachment?) && !deleted
  }

  /** A valid prefix stays valid exactly when the next attachment fits. */
  lemma ES2Step(atts: seq<Attachment>, i: nat, maxColor: int)
    requires i < |atts| && ES2Attachable(atts, i, maxColor)
    ensures ES2Attachable(atts, i + 1, maxColor) <==> FitsES2(atts, i, maxColor)
  {
    if FitsES2(atts, i, maxColor) {
      assert IndicesInRange(atts, i + 1, maxColor);
      assert SingleDepthStencil(atts, i + 1) by {
        forall j, k | 0 <= j < k < i + 1 && atts[j].DepthStencilAttachment?
          ensures !atts[k].DepthStencilAttachment?
        {
          if k < i {
            assert SingleDepthStencil(atts, i);
          }
        }
      }
      assert DistinctColorIndices(atts, i + 1) by {
        forall j, k | 0 <= j < k < i + 1 && atts[j].ColorAttachment? && atts[k].ColorAttachment?
          ensures atts[j].index != atts[k].index
        {
          if k < i {
            assert DistinctColorIndices(atts, i);
          }
        }
      }
      assert NoneDeleted(atts, i + 1);
    } else {
      match atts[i]
      case ColorAttachment(index, _, deleted) =>
        if !(0 <= index <= maxColor - 1) {
          assert !IndicesInRange(atts, i + 1, maxColor);
        } else if deleted {
          assert IsDeleted(atts[i]);
        } else {
          var j :| 0 <= j < i && atts[j].ColorAttachment? && atts[j].index == index;
          assert !DistinctColorIndices(atts, i + 1);
        }
      case DepthStencilAttachment(_, deleted) =>
        if deleted {
          assert IsDeleted(atts[i]);
        } else {
          var j :| 0 <= j < i && atts[j].DepthStencilAttachment?;
          assert !SingleDepthStencil(atts, i + 1);
        }
    }
  }

  /** The attachment loop of framebufferAllocate: it stops at the first
      attachment that fails a check, having attached the ones before it. */
  method AttachAllES2(atts: seq<Attachment>, maxColor: int)
    returns (r: Outcome, calls: seq<FramebufferCall>, haveColor: bool)
    ensures r.Pass? <==> ES2Attachable(atts, |atts|, maxColor)
    ensures r.Pass? ==> calls == AttachCallsES2(atts, |atts|) && (haveColor <==> HasColor(atts))
    ensures r.Fail? ==> r.error.ConstraintError?
    ensures r.Fail? ==> exists k :: 0 <= k < |atts| && ES2Attachable(atts, k, maxColor)
                                    && !ES2Attachable(atts, k + 1, maxColor)
                                    && calls == AttachCallsES2(atts, k)
  {
    var haveDepth := false;
    haveColor := false;
    var colorIndices: set<int> := {};
    calls := [];
    var i := 0;
    while i < |atts|
      invariant 0 <= i <= |atts|
      invariant ES2Attachable(atts, i, maxColor)
      invariant calls == AttachCallsES2(atts, i)
      invariant haveColor <==> exists j :: 0 <= j < i && atts[j].ColorAttachment?
      invariant haveDepth <==> exists j :: 0 <= j < i && atts[j].DepthStencilAttachment?
      invariant forall x :: x in colorIndices <==>
                  exists j :: 0 <= j < i && atts[j].ColorAttachment? && atts[j].index == x
    {
      ES2Step(atts, i, maxColor);
      var failure: Option<string> := None;
      match atts[i] {
        case ColorAttachment(index, _, deleted) =>
          if !(0 <= index <= maxColor - 1) {
            failure := Some("Color buffer attachment index in range");
          } else if index in colorIndices {
            failure := Some("Color buffer not already present at this index");
          } else if deleted {
            failure := Some("Texture is not deleted");
          } else {
            colorIndices := colorIndices + {index};
            haveColor := true;
          }
        case DepthStencilAttachment(_, deleted) =>
          if haveDepth {
            failure := Some("Only one depth+stencil buffer provided");
          } else {
            haveDepth := true;
            if deleted {
              failure := Some("Depth+Stencil buffer is not deleted");
            }
          }
      }
      if failure.Some? {
        assert !FitsES2(atts, i, maxColor);
        return Fail(ConstraintError(failure.value)), calls, haveColor;
      }
      calls := calls + CallsForES2(atts[i]);
      i := i + 1;
    }
    r := Pass;
  }

  /** framebufferAllocate: generate a framebuffer, require at least one
      attachment, bind it, attach every attachment, require a colour
      attachment, then require the status FRAMEBUFFER_COMPLETE.  Once the
      framebuffer is bound, framebuffer 0 is rebound on every exit. */
  method FramebufferAllocate(atts: seq<Attachment>, maxColor: int, name: int, status: int)
    returns (r: Result<int>, calls: seq<FramebufferCall>)
    ensures |atts| == 0 ==> r == Err(ConstraintError("Framebuffer attachments length"))
                            && calls == [GenFramebuffer]
    ensures r.Ok? <==> ES2Acceptable(atts, maxColor) && status == GL_FRAMEBUFFER_COMPLETE
    ensures r.Ok? ==> r.value == name
    ensures ES2Acceptable(atts, maxColor) && status != GL_FRAMEBUFFER_COMPLETE
            ==> r == Err(GLException(status))
    ensures |atts| >= 1 && !ES2Acceptable(atts, maxColor) ==> r.Err? && r.error.ConstraintError?
    ensures |atts| >= 1 ==> |calls| >= 3 && calls[0] == GenFramebuffer && calls[1] == BindFramebuffer(name)
                            && calls[|calls| - 1] == BindFramebuffer(0)
    ensures ES2Acceptable(atts, maxColor) ==>
      calls == [GenFramebuffer, BindFramebuffer(name)] + AttachCallsES2(atts, |atts|)
               + [CheckFramebufferStatus, BindFramebuffer(0)]
  {
    calls := [GenFramebuffer];
    if |atts| < 1 {
      return Err(ConstraintError("Framebuffer attachments length")), calls;
    }
    calls := calls + [BindFramebuffer(name)];
    var attached, attachCalls, haveColor := AttachAllES2(atts, maxColor);
    calls := calls + attachCalls;
    if attached.Fail? {
      r := Err(attached.error);
    } else if !haveColor {
      r := Err(ConstraintError("Framebuffer has at least one color buffer"));
    } else {
      calls := calls + [CheckFramebufferStatus];
      if status == GL_FRAMEBUFFER_COMPLETE {
        r := Ok(name);
      } else {
        r := Err(GLException(status));
      }
    }
    calls := calls + [BindFramebuffer(0)];
  }

  // ---------------------------------------------------------------------
  // framebufferAttachStorage (OpenGL 3)

  /** The attachment loop of framebufferAttachStorage: only the colour index
      range and the single depth+stencil attachment are checked. */
  method AttachAllGL3(atts: seq<Attachment>, maxColor: int)
    returns (r: Outcome, calls: seq<FramebufferCall>)
    ensures r.Pass? <==> GL3Attachable(atts, |atts|, maxColor)
    ensures r.Pass? ==> calls == AttachCallsGL3(atts, |atts|)
    ensures r.Fail? ==> r.error.ConstraintError?
    ensures r.Fail? ==> exists k :: 0 <= k < |atts| && GL3Attachable(atts, k, maxColor)
                                    && !GL3Attachable(atts, k + 1, maxColor)
                                    && calls == AttachCallsGL3(atts, k)
  {
    var haveDepth := false;
    calls := [];
    var i := 0;
    while i < |atts|
      invariant 0 <= i <= |atts|
      invariant GL3Attachable(atts, i, maxColor)
      invariant calls == AttachCallsGL3(atts, i)
      invariant haveDepth <==> exists j :: 0 <= j < i && atts[j].DepthStencilAttachment?
    {
      var a := atts[i];
      match a {
        case ColorAttachment(index, _, _) =>
          if !(0 <= index <= maxColor - 1) {
            assert !IndicesInRange(atts, i + 1, maxColor);
            assert !GL3Attachable(atts, i + 1, maxColor);
            return Fail(ConstraintError("Color buffer attachment index in range")), calls;
          }
        case DepthStencilAttachment(_, _) =>
          if haveDepth {
            var j :| 0 <= j < i && atts[j].DepthStencilAttachment?;
            assert !SingleDepthStencil(atts, i + 1);
            assert !GL3Attachable(atts, i + 1, maxColor);
            return Fail(ConstraintError("Only one depth+stencil buffer provided")), calls;
          }
          haveDepth := true;
      }
      calls := calls + CallsForGL3(a);
      i := i + 1;
    }
    r := Pass;
  }

  /** framebufferAttachStorage: a live framebuffer is bound, its storage
      attached and its status required to be FRAMEBUFFER_COMPLETE; framebuffer
      0 is rebound on every exit after the bind. */
  method FramebufferAttachStorage(fb: Framebuffer, atts: seq<Attachment>, maxColor: int, status: int)
    returns (r: Outcome, calls: seq<FramebufferCall>)
    ensures fb.deleted ==> r == Fail(ConstraintError("Framebuffer not deleted")) && calls == []
    ensures r.Pass? <==> !fb.deleted && GL3Attachable(atts, |atts|, maxColor)
                         && status == GL_FRAMEBUFFER_COMPLETE
    ensures !fb.deleted && GL3Attachable(atts, |atts|, maxColor) && status != GL_FRAMEBUFFER_COMPLETE
            ==> r == Fail(GLException(status))
    ensures !fb.deleted ==> |calls| >= 2 && calls[0] == BindFramebuffer(fb.name)
                            && calls[|calls| - 1] == BindFramebuffer(0)
    ensures !fb.deleted && GL3Attachable(atts, |atts|, maxColor) ==>
      calls == [BindFramebuffer(fb.name)] + AttachCallsGL3(atts, |atts|)
               + [CheckFramebufferStatus, BindFramebuffer(0)]
  {
    if fb.deleted {
      return Fail(ConstraintError("Framebuffer not deleted")), [];
    }
    calls := [BindFramebuffer(fb.name)];
    var attached, attachCalls := AttachAllGL3(atts, maxColor);
    calls := calls + attachCalls;
    if attached.Fail? {
      r := attached;
    } else {
      calls := calls + [CheckFramebufferStatus];
      r := if status == GL_FRAMEBUFFER_COMPLETE then Pass else Fail(GLException(status));
    }
    calls := calls + [BindFramebuffer(0)];
  }

  /** Every array the ES2 allocator accepts passes the OpenGL 3 checks. */
  lemma ES2ChecksSubsumeGL3(atts: seq<Attachment>, maxColor: int)
    requires ES2Acceptable(atts, maxColor)
    ensures GL3Attachable(atts, |atts|, maxColor)
  {
  }

  /** The OpenGL 3 checks let through what the ES2 allocator refuses: a
      repeated colour index, a missing colour attachment and deleted storage. */
  lemma GL3ChecksAdmitMore()
    ensures var dup := [ColorAttachment(0, 7, false), ColorAttachment(0, 8, false)];
            GL3Attachable(dup, 2, 1) && !ES2Attachable(dup, 2, 1)
    ensures var depthOnly := [DepthStencilAttachment(9, false)];
            GL3Attachable(depthOnly, 1, 1) && !HasColor(depthOnly)
    ensures var gone := [ColorAttachment(0, 7, true)];
            GL3Attachable(gone, 1, 1) && !ES2Attachable(gone, 1, 1)
  {
    var dup := [ColorAttachment(0, 7, false), ColorAttachment(0, 8, false)];
    assert dup[0].index == dup[1].index;
    var gone := [ColorAttachment(0, 7, true)];
    assert IsDeleted(gone[0]);
  }

  // ---------------------------------------------------------------------
  // framebufferDelete

  /** framebufferDelete as the ES2 interfaces and the JOGL ES2 backend write
      it: a live framebuffer is deleted and, once the error check passes,
      marked deleted. */
  method FramebufferDelete(fb: Framebuffer, glError: int) returns (r: Outcome, calls: seq<FramebufferCall>)
    modifies fb
    ensures old(fb.deleted) ==> r == Fail(ConstraintError("Framebuffer not deleted")) && calls == []
    ensures !old(fb.deleted) ==> calls == [DeleteFramebuffer(fb.name)]
    ensures r.Pass? <==> !old(fb.deleted) && glError == GL_NO_ERROR
    ensures !old(fb.deleted) && glError != GL_NO_ERROR ==> r == Fail(GLException(glError))
    ensures fb.deleted <==> old(fb.deleted) || r.Pass?
  {
    if fb.deleted {
      return Fail(ConstraintError("Framebuffer not deleted")), [];
    }
    calls := [DeleteFramebuffer(fb.name)];
    if glError != GL_NO_ERROR {
      return Fail(GLException(glError)), calls;
    }
    fb.deleted := true;
    r := Pass;
  }

  /** framebufferDelete of the OpenGL 3 interface as written: the same guard
      and GL call, but the framebuffer is never marked deleted. */
  method FramebufferDeleteGL3AsWritten(fb: Framebuffer, glError: int)
    returns (r: Outcome, calls: seq<FramebufferCall>)
    ensures fb.deleted ==> r == Fail(ConstraintError("Framebuffer not deleted")) && calls == []
    ensures !fb.deleted ==> calls == [DeleteFramebuffer(fb.name)]
    ensures r.Pass? <==> !fb.deleted && glError == GL_NO_ERROR
  {
    if fb.deleted {
      return Fail(ConstraintError("Framebuffer not deleted")), [];
    }
    calls := [DeleteFramebuffer(fb.name)];
    r := if glError != GL_NO_ERROR then Fail(GLException(glError)) else Pass;
  }

  /** As written, deleting the same framebuffer twice passes the "not
      deleted" guard both times and deletes its GL name twice. */
  method DoubleDeleteGL3AsWritten(fb: Framebuffer) returns (first: Outcome, second: Outcome)
    requires !fb.deleted
    ensures first.Pass? && second.Pass?
  {
    var calls1, calls2;
    first, calls1 := FramebufferDeleteGL3AsWritten(fb, GL_NO_ERROR);
    second, calls2 := FramebufferDeleteGL3AsWritten(fb, GL_NO_ERROR);
  }

  /** With the flag set, the second delete is refused. */
  method DoubleDelete(fb: Framebuffer) returns (first: Outcome, second: Outcome)
    requires !fb.deleted
    modifies fb
    ensures first.Pass? && second == Fail(ConstraintError("Framebuffer not deleted"))
  {
    var calls1, calls2;
    first, calls1 := FramebufferDelete(fb, GL_NO_ERROR);
    second, calls2 := FramebufferDelete(fb, GL_NO_ERROR);
  }

  // ---------------------------------------------------------------------
  // Single attachments (JOGL ES2 backend)

  /** What a renderbuffer's type can be rendered as. */
  datatype RenderbufferType = RenderbufferType(color: bool, depth: bool, stencil: bool)

  datatype Renderbuffer = Renderbuffer(name: int, deleted: bool, kind: RenderbufferType)

  /** The attachment points a renderbuffer can be attached to. */
  datatype RenderbufferUse = UseColor | UseDepth | UseStencil | UseDepthStencil

  /** The renderability a renderbuffer needs for each attachment point: a
      depth attachment must not also be stencil-renderable and a stencil
      attachment not also depth-renderable. */
  predicate RenderbufferSuits(use: RenderbufferUse, t: RenderbufferType)
  {
    match use
    case UseColor => t.color
    case UseDepth => t.depth && !t.stencil
    case UseStencil => t.stencil && !t.depth
    case UseDepthStencil => t.depth && t.stencil
  }

  /** A renderbuffer type suits at most one of the depth, stencil and packed
      depth+stencil points. */
  lemma RenderbufferUsesExclusive(t: RenderbufferType, u1: RenderbufferUse, u2: RenderbufferUse)
    requires u1 != UseColor && u2 != UseColor
    requires RenderbufferSuits(u1, t) && RenderbufferSuits(u2, t)
    ensures u1 == u2
  {
  }

  function RenderbufferCalls(use: RenderbufferUse, rb: int): seq<FramebufferCall>
  {
    match use
    case UseColor => [FramebufferRenderbuffer(GL_COLOR_ATTACHMENT0, rb)]
    case UseDepth => [FramebufferRenderbuffer(GL_DEPTH_ATTACHMENT, rb)]
    case UseStencil => [FramebufferRenderbuffer(GL_STENCIL_ATTACHMENT, rb)]
    case UseDepthStencil =>
      [FramebufferRenderbuffer(GL_DEPTH_ATTACHMENT, rb), FramebufferRenderbuffer(GL_STENCIL_ATTACHMENT, rb)]
  }

  /** The guard every single-attachment function starts with: the
      framebuffer is live and is the one bound for drawing. */
  method FramebufferGuard(fb: Framebuffer, boundFramebuffer: int) returns (r: Outcome)
    ensures r.Pass? <==> !fb.deleted && boundFramebuffer == fb.name
    ensures fb.deleted ==> r == Fail(ConstraintError("Framebuffer not deleted"))
    ensures !fb.deleted && boundFramebuffer != fb.name ==> r == Fail(ConstraintError("Framebuffer is bound"))
  {
    if fb.deleted {
      return Fail(ConstraintError("Framebuffer not deleted"));
    }
    if boundFramebuffer != fb.name {
      return Fail(ConstraintError("Framebuffer is bound"));
    }
    r := Pass;
  }

  /** framebufferDrawAttach{Color,Depth,Stencil,DepthStencil}Renderbuffer:
      after the framebuffer guard, a live renderbuffer of a suitable type is
      attached.  `glError` is what the error check reports. */
  method FramebufferDrawAttachRenderbuffer(fb: Framebuffer, boundFramebuffer: int, rb: Renderbuffer,
                                           use: RenderbufferUse, glError: int)
    returns (r: Outcome, calls: seq<FramebufferCall>)
    ensures r.Pass? <==> !fb.deleted && boundFramebuffer == fb.name && !rb.deleted
                         && RenderbufferSuits(use, rb.kind) && glError == GL_NO_ERROR
    ensures calls == (if !fb.deleted && boundFramebuffer == fb.name && !rb.deleted
                         && RenderbufferSuits(use, rb.kind)
                      then RenderbufferCalls(use, rb.name) else [])
    ensures r.Fail? && calls == [] ==> r.error.ConstraintError?
    ensures calls != [] && r.Fail? ==> r.error == GLException(glError)
  {
    calls := [];
    r := FramebufferGuard(fb, boundFramebuffer);
    if r.Fail? {
      return;
    }
    if rb.deleted {
      return Fail(ConstraintError("Renderbuffer not deleted")), [];
    }
    var t := rb.kind;
    match use {
      case UseColor =>
        if !t.color {
          return Fail(ConstraintError("Renderbuffer is color renderable")), [];
        }
      case UseDepth =>
        if !t.depth {
          return Fail(ConstraintError("Renderbuffer is depth renderable")), [];
        }
        if t.stencil {
          return Fail(ConstraintError("Renderbuffer is not also stencil renderable")), [];
        }
      case UseStencil =>
        if !t.stencil {
          return Fail(ConstraintError("Renderbuffer is stencil renderable")), [];
        }
        if t.depth {
          return Fail(ConstraintError("Renderbuffer is not also depth renderable")), [];
        }
      case UseDepthStencil =>
        if !t.depth {
          return Fail(ConstraintError("Renderbuffer is depth renderable")), [];
        }
        if !t.stencil {
          return Fail(ConstraintError("Renderbuffer is stencil renderable")), [];
        }
    }
    calls := RenderbufferCalls(use, rb.name);
    r := if glError != GL_NO_ERROR then Fail(GLException(glError)) else Pass;
  }

  /** A texture as the attach functions see it: its name, whether it is
      deleted and whether its type is colour- or depth-renderable. */
  datatype Texture = Texture(name: int, deleted: bool, colorRenderable: bool, depthRenderable: bool)

  /** Where a texture is attached: a 2D texture at the colour or depth point,
      or one face (given by its GL target) of a cube texture at the colour
      point. */
  datatype TextureUse = ColorTexture2D | ColorTextureCube(faceTarget: int) | DepthTexture2D

  predicate TextureSuits(use: TextureUse, t: Texture)
  {
    match use
    case ColorTexture2D => t.colorRenderable
    case ColorTextureCube(_) => t.colorRenderable
    case DepthTexture2D => t.depthRenderable
  }

  function TextureCall(use: TextureUse, texture: int): FramebufferCall
  {
    match use
    case ColorTexture2D => FramebufferTexture2D(GL_COLOR_ATTACHMENT0, GL_TEXTURE_2D, texture)
    case ColorTextureCube(face) => FramebufferTexture2D(GL_COLOR_ATTACHMENT0, face, texture)
    case DepthTexture2D => FramebufferTexture2D(GL_DEPTH_ATTACHMENT, GL_TEXTURE_2D, texture)
  }

  /** framebufferDrawAttachColorTexture2D, ...ColorTextureCube and
      ...DepthTexture2D: after the framebuffer guard, a live texture of a
      suitable type is attached. */
  method FramebufferDrawAttachTexture(fb: Framebuffer, boundFramebuffer: int, tex: Texture,
                                      use: TextureUse, glError: int)
    returns (r: Outcome, calls: seq<FramebufferCall>)
    ensures r.Pass? <==> !fb.deleted && boundFramebuffer == fb.name && !tex.deleted
                         && TextureSuits(use, tex) && glError == GL_NO_ERROR
    ensures calls == (if !fb.deleted && boundFramebuffer == fb.name && !tex.deleted && TextureSuits(use, tex)
                      then [TextureCall(use, tex.name)] else [])
    ensures r.Fail? && calls == [] ==> r.error.ConstraintError?
    ensures calls != [] && r.Fail? ==> r.error == GLException(glError)
  {
    calls := [];
    r := FramebufferGuard(fb, boundFramebuffer);
    if r.Fail? {
      return;
    }
    if tex.deleted {
      return Fail(ConstraintError("Texture not deleted")), [];
    }
    if !TextureSuits(use, tex) {
      var what := if use.DepthTexture2D? then "Texture is depth renderable" else "Texture is color renderable";
      return Fail(ConstraintError(what)), [];
    }
    calls := [TextureCall(use, tex.name)];
    r := if glError != GL_NO_ERROR then Fail(GLException(glError)) else Pass;
  }
}
