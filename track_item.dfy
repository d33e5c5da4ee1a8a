/**
 * One row of the track list (`TrackItem.tsx`): the download button with its
 * label, icon and enabled flag, or a progress bar while the track downloads.
 */
module TrackItem {
  import opened Types

  /** The icon shown in the button for each status. */
  datatype Icon = DownloadIcon | SpinnerIcon | CheckIcon | RetryIcon

  /** What the right-hand side of a row shows. */
  datatype Control =
    | ProgressBar(value: int)
    | DownloadButton(text: string, icon: Icon, enabled: bool)

  /** A status from which the button starts a download. */
  predicate IsActionable(status: DownloadStatus)
  {
    status == Idle || status == Error
  }

  /** The button text (and accessible label) for each status. */
  function Label(status: DownloadStatus): string
  {
    match status
    case Idle => "Download"
    case Downloading => "Downloading"
    case Completed => "Completed"
    case Error => "Retry"
  }

  function IconOf(status: DownloadStatus): Icon
  {
    match status
    case Idle => DownloadIcon
    case Downloading => SpinnerIcon
    case Completed => CheckIcon
    case Error => RetryIcon
  }

  /** The button for a status; it is disabled exactly when the status is not actionable. */
  function Button(status: DownloadStatus): Control
  {
    DownloadButton(Label(status), IconOf(status), IsActionable(status))
  }

  /** The control of a row: the progress bar while downloading, the button otherwise. */
  function RowControl(status: DownloadStatus, progress: int): Control
  {
    if status == Downloading then ProgressBar(progress) else Button(status)
  }

  /** Different statuses have different labels, so the label tells the status. */
  lemma LabelsDistinct(s: DownloadStatus, t: DownloadStatus)
    ensures Label(s) == Label(t) <==> s == t
  {
  }

  /** A row shows a clickable button exactly for an idle or failed track. */
  lemma ClickableRow(status: DownloadStatus, progress: int)
    ensures RowControl(status, progress).DownloadButton? && RowControl(status, progress).enabled
        <==> status == Idle || status == Error
  {
  }

  /** The progress bar replaces the button exactly while the track downloads, and shows its progress. */
  lemma ProgressBarWhileDownloading(status: DownloadStatus, progress: int)
    ensures RowControl(status, progress).ProgressBar? <==> status == Downloading
    ensures RowControl(status, progress).ProgressBar? ==> RowControl(status, progress).value == progress
  {
  }

  /** A completed track shows a disabled "Completed" button. */
  lemma CompletedIsFinal(progress: int)
    ensures RowControl(Completed, progress) == DownloadButton("Completed", CheckIcon, false)
  {
  }

  /** A failed track shows an enabled "Retry" button. */
  lemma ErrorOffersRetry(progress: int)
    ensures RowControl(Error, progress) == DownloadButton("Retry", RetryIcon, true)
  {
  }
}
