/**
 * QuadProcessor: the first resize entry point. It compares the sizes it is given,
 * reloads the file, resamples edge-anchored into a reinitialised texture and
 * writes it back, swallowing every exception.
 */
module QuadProcessor {
  import opened Wrappers
  import opened Structs
  import opened Engine
  import opened Resampler
  import opened Processing

  /** This file's EncodeTexture: PNG, JPG and also TGA and EXR. */
  function EncodeTexture(fileExtension: string): (format: Option<Format>)
    ensures format.Some? <==>
      fileExtension in {".png", ".jpg", ".jpeg", ".tga", ".exr"}
    ensures format == Some(Tga) <==> fileExtension == ".tga"
    ensures format == Some(Exr) <==> fileExtension == ".exr"
  {
    match fileExtension
    case ".png" => Some(Png)
    case ".jpg" => Some(Jpg)
    case ".jpeg" => Some(Jpg)
    case ".tga" => Some(Tga)
    case ".exr" => Some(Exr)
    case _ => None
  }

  /** It agrees with the utility's encoder wherever that one has an encoder, and only adds TGA and EXR. */
  lemma EncodeTextureExtends(fileExtension: string)
    ensures EncoderFor(fileExtension).Some? ==> EncodeTexture(fileExtension) == EncoderFor(fileExtension)
    ensures EncodeTexture(fileExtension).Some? && EncoderFor(fileExtension).None? ==>
      fileExtension == ".tga" || fileExtension == ".exr"
  {
  }

  /**
   * What ModifyTextureFile does to one file. An exception from reading or writing is
   * caught and logged, so none of these outcomes reaches the caller as an exception.
   * Each status is tied to the inputs that produce it.
   */
  function Modification<P>(host: Host<P>, files: Files, assetPath: string,
                           currentWidth: nat, currentHeight: nat, newWidth: nat, newHeight: nat): (o: Outcome)
    requires host.Valid()
    ensures o.status == SameSizeRequested <==> newWidth == currentWidth && newHeight == currentHeight
    ensures o.status == ReadFailed <==>
      (currentWidth, currentHeight) != (newWidth, newHeight) && assetPath !in files
    ensures o.status == NotDecoded <==>
      (currentWidth, currentHeight) != (newWidth, newHeight) && LoadTextureFromFile(host, files, assetPath).NotAnImage?
    ensures o.status != AlreadyAtTarget
    ensures o.status == ReinitializeFailed <==>
      && (currentWidth, currentHeight) != (newWidth, newHeight) && LoadTextureFromFile(host, files, assetPath).Loaded?
      && !host.canResize(newWidth, newHeight)
    ensures o.status == EncodeUnsupported <==>
      && (currentWidth, currentHeight) != (newWidth, newHeight) && LoadTextureFromFile(host, files, assetPath).Loaded?
      && host.canResize(newWidth, newHeight) && EncodeTexture(LoweredExtension(assetPath)).None?
    ensures o.status == EncodeFailed <==>
      && (currentWidth, currentHeight) != (newWidth, newHeight) && LoadTextureFromFile(host, files, assetPath).Loaded?
      && host.canResize(newWidth, newHeight) && EncodeTexture(LoweredExtension(assetPath)).Some?
      && !EncodesWith(host, EncodeTexture(LoweredExtension(assetPath)), ResizedFile(host, files, assetPath, newWidth, newHeight))
    ensures o.status == WriteFailed <==>
      && (currentWidth, currentHeight) != (newWidth, newHeight) && LoadTextureFromFile(host, files, assetPath).Loaded?
      && host.canResize(newWidth, newHeight)
      && EncodesWith(host, EncodeTexture(LoweredExtension(assetPath)), ResizedFile(host, files, assetPath, newWidth, newHeight))
      && !host.canWrite(assetPath)
    ensures o.status == Written <==>
      && (currentWidth, currentHeight) != (newWidth, newHeight) && LoadTextureFromFile(host, files, assetPath).Loaded?
      && host.canResize(newWidth, newHeight)
      && EncodesWith(host, EncodeTexture(LoweredExtension(assetPath)), ResizedFile(host, files, assetPath, newWidth, newHeight))
      && host.canWrite(assetPath)
    ensures o.status != Written ==> o.files == files
    ensures o.status == Written ==>
      && o.files.Keys == files.Keys
      && (forall p :: p in files && p != assetPath ==> o.files[p] == files[p])
  {
    if newWidth == currentWidth && newHeight == currentHeight then Outcome(SameSizeRequested, files)
    else match LoadTextureFromFile(host, files, assetPath)
      case ReadThrew => Outcome(ReadFailed, files)
      case NotAnImage => Outcome(NotDecoded, files)
      case Loaded(texture) =>
        if !host.canResize(newWidth, newHeight) then Outcome(ReinitializeFailed, files)
        else
          var resized := ResizedFile(host, files, assetPath, newWidth, newHeight);
          match EncodeTexture(LoweredExtension(assetPath))
          case None => Outcome(EncodeUnsupported, files)
          case Some(format) =>
            match host.encode(format, resized)
            case None => Outcome(EncodeFailed, files)
            case Some(newBytes) =>
              if !host.canWrite(assetPath) then Outcome(WriteFailed, files)
              else Outcome(Written, files[assetPath := newBytes])
  }

  /**
   * A written file holds the edge-anchored resample of the texture that was loaded,
   * at the requested size; the sizes passed in play no further part once they differ.
   */
  lemma ModificationWrites<P>(host: Host<P>, files: Files, assetPath: string,
                              currentWidth: nat, currentHeight: nat, newWidth: nat, newHeight: nat)
    requires host.Valid()
    ensures var o := Modification(host, files, assetPath, currentWidth, currentHeight, newWidth, newHeight);
      o.status == Written ==>
        var texture := LoadTextureFromFile(host, files, assetPath).texture;
        && LoadTextureFromFile(host, files, assetPath).Loaded?
        && host.encode(EncodeTexture(LoweredExtension(assetPath)).value,
             Texture(newWidth, newHeight, Resample(texture.pixels, texture.width, texture.height, newWidth, newHeight)))
           == Some(o.files[assetPath])
  {
  }

  /**
   * When the loaded texture already has the new size (the sizes passed in were stale),
   * it is re-encoded with every pixel in place.
   */
  lemma SameLoadedSizeKeepsPixels<P>(host: Host<P>, files: Files, assetPath: string,
                                     currentWidth: nat, currentHeight: nat, newWidth: nat, newHeight: nat)
    requires host.Valid()
    requires LoadTextureFromFile(host, files, assetPath).Loaded?
    requires LoadTextureFromFile(host, files, assetPath).texture.width == newWidth
    requires LoadTextureFromFile(host, files, assetPath).texture.height == newHeight
    ensures var o := Modification(host, files, assetPath, currentWidth, currentHeight, newWidth, newHeight);
      o.status == Written ==>
        host.encode(EncodeTexture(LoweredExtension(assetPath)).value,
          LoadTextureFromFile(host, files, assetPath).texture) == Some(o.files[assetPath])
  {
    var texture := LoadTextureFromFile(host, files, assetPath).texture;
    ResampleSameSize(texture.pixels, newWidth, newHeight);
  }

  /** ModifyTextureFile, proved to do what Modification describes. */
  method ModifyTextureFile<P(0)>(host: Host<P>, files: Files, assetPath: string,
                                 currentWidth: nat, currentHeight: nat, newWidth: nat, newHeight: nat)
    returns (outcome: Outcome)
    requires host.Valid()
    ensures outcome == Modification(host, files, assetPath, currentWidth, currentHeight, newWidth, newHeight)
  {
    if newWidth == currentWidth && newHeight == currentHeight {
      return Outcome(SameSizeRequested, files);
    }
    var loaded := LoadTextureFromFile(host, files, assetPath);
    if loaded.ReadThrew? {
      return Outcome(ReadFailed, files);
    }
    if loaded.NotAnImage? {
      return Outcome(NotDecoded, files);
    }
    var texture := loaded.texture;
    var loadedWidth, loadedHeight := texture.width, texture.height;
    var resized := ResizeTexture(host, texture, loadedWidth, loadedHeight, newWidth, newHeight);
    if resized.None? {
      return Outcome(ReinitializeFailed, files);
    }
    var fileExtension := LoweredExtension(assetPath);
    var format := EncodeTexture(fileExtension);
    if format.None? {
      return Outcome(EncodeUnsupported, files);
    }
    var newBytes := host.encode(format.value, resized.value);
    if newBytes.None? {
      return Outcome(EncodeFailed, files);
    }
    if !host.canWrite(assetPath) {
      return Outcome(WriteFailed, files);
    }
    outcome := Outcome(Written, files[assetPath := newBytes.value]);
  }
}
