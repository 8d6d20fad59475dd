/** The seed data the app starts from before any fetch settles, and what it implies for the
    admin handlers and the public projections. */
module Seed {
  import opened Wrappers
  import opened Types
  import opened Seqs
  import opened Decimal
  import opened Collection
  import opened Ordering
  import opened AdminDashboard
  import opened Display

  const INITIAL_PROJECTS: seq<Project> := [
    Project(
      id := "fe-tsa",
      name := "FE TSA 1-1",
      logo_url := "https://picsum.photos/100/100?random=1",
      strengths := [
        "Hoa hồng nhận tươi sau giải ngân",
        "Nhập hồ sơ trực tiếp siêu nhanh",
        "Hỗ trợ mở code nợ xấu, làm online toàn quốc",
        "Sales theo dõi và push trực tiếp với TSA",
        "Tỷ lệ duyệt cao nhất trong các đối tác",
        "Chạy code nội bộ, không ảnh hưởng code chính thống"],
      register_link := "https://www.finconnect.vn/register?manager_code=FNC00017",
      group_link := "https://zalo.me/g/oucpop180",
      contact_phone := "0888979809",
      short_description := "Dự án vay tiêu dùng tín chấp hàng đầu. Nhập hồ sơ 2 luồng trực tiếp, quản lý chặt chẽ.",
      popup_content := "Quy trình duyệt siêu tốc. Sales theo dõi hồ sơ và push trực tiếp với TSA, giúp quản lý hồ sơ chặt & nhanh. Nhập hồ sơ theo 2 luồng Trực tiếp siêu nhanh.",
      priority := 1,
      enabled := true,
      commission_policy := Some("- Khoản vay < 30tr: 900.000đ/hồ sơ\n- Khoản vay > 30tr: 1.200.000đ/hồ sơ\n- Thưởng mốc số lượng: +200k/hồ sơ khi đạt mốc 5"),
      conditions := None,
      tab_1_title := Some("Điều kiện lên code"),
      tab_1_content := Some("- Cung cấp CCCD 2 mặt\n- Số điện thoại chính chủ\n- Email cá nhân\n- Không nợ xấu nhóm 3 trở lên"),
      tab_2_title := Some("Quy trình xử lý hồ sơ"),
      tab_2_content := Some("B1: Nhập liệu lên app\nB2: TSA thẩm định sơ bộ (15p)\nB3: QDE check và trả kết quả\nB4: Ký hợp đồng điện tử"),
      tab_3_title := Some("Lưu ý quan trọng"),
      tab_3_content := Some("Vui lòng kiểm tra kỹ PCB trước khi lên hồ sơ để tránh mất thời gian. Liên hệ admin nếu cần check CIC nội bộ.")),
    Project(
      id := "vib-max",
      name := "VIB Max",
      logo_url := "https://picsum.photos/100/100?random=2",
      strengths := [
        "Hoa hồng thẻ cao nhất thị trường",
        "Quản lý doanh số trực tiếp trên App MaxAgent",
        "Hoa hồng CTV cao: 1.000k/thẻ",
        "Theo dõi đội nhóm dễ dàng",
        "Hoa hồng Team Lead: 400k/thẻ",
        "Hoa hồng Sup: 300k/thẻ"],
      register_link := "#",
      group_link := "https://zalo.me/g/fbwzqi875",
      contact_phone := "0888979809",
      short_description := "Dự án thẻ tín dụng VIB với cơ chế hoa hồng hấp dẫn nhất thị trường.",
      popup_content := "Mã giới thiệu VIB Max: 233105. Quản lý doanh số & Hoa hồng Trực tiếp trên App MaxAgent của VIB. Theo dõi đội nhóm dễ dàng.",
      priority := 2,
      enabled := true,
      commission_policy := Some("- Thẻ Online Plus: 800k\n- Thẻ Cash Back: 1.000k\n- Thẻ Rewards Unlimited: 900k\n- Thẻ Travel Élite: 1.200k"),
      conditions := None,
      tab_1_title := Some("Cơ chế hoa hồng"),
      tab_1_content := Some("- Thẻ Online Plus: 800k\n- Thẻ Cash Back: 1.000k\n- Thẻ Travel: 1.200k"),
      tab_2_title := Some("Hồ sơ yêu cầu"),
      tab_2_content := Some("CCCD gắn chip + Bảo hiểm xã hội (VssID) hoặc Sao kê lương 3 tháng gần nhất."),
      tab_3_title := Some("Khu vực hỗ trợ"),
      tab_3_content := Some("Hỗ trợ khách hàng đang sinh sống và làm việc tại Hà Nội, TP.HCM, Đà Nẵng, Bình Dương, Đồng Nai.")),
    Project(
      id := "tnex",
      name := "Tnex 1-1",
      logo_url := "https://picsum.photos/100/100?random=3",
      strengths := [
        "Hoa hồng cao, trả ngay sau giải ngân",
        "Duyệt tự động 15p, chỉ cần CCCD",
        "Hỗ trợ nợ xấu, chạy code nội bộ",
        "Theo dõi & push hồ sơ luồng trực tiếp",
        "Không qua bên thứ 3",
        "Không ảnh hưởng code chính thống"],
      register_link := "https://duan-tnex.phucnguyens.id.vn",
      group_link := "https://zalo.me/g/ybmknm699",
      contact_phone := "0888979809",
      short_description := "Ngân hàng số thế hệ mới. Duyệt hồ sơ tự động siêu tốc.",
      popup_content := "Tnex là ngân hàng số được bảo trợ bởi MSB. Quy trình mở tài khoản hoàn toàn trực tuyến (eKYC) và duyệt vay hạn mức thấu chi siêu tốc.",
      priority := 3,
      enabled := true,
      commission_policy := Some("- Mở tài khoản thành công: 80.000đ/tk\n- Giới thiệu vay hạn mức: 350.000đ/hồ sơ giải ngân"),
      conditions := None,
      tab_1_title := Some("Điều kiện khách hàng"),
      tab_1_content := Some("- Công dân Việt Nam đủ 18 tuổi\n- Có CCCD gắn chip còn hiệu lực\n- Đang sử dụng Smartphone"),
      tab_2_title := Some("Quy trình eKYC"),
      tab_2_content := Some("B1: Tải App Tnex qua link giới thiệu\nB2: Chụp ảnh CCCD 2 mặt\nB3: Quét khuôn mặt (Liveness check)\nB4: Nhập mã giới thiệu (nếu có)"),
      tab_3_title := Some("Lưu ý ghi nhận"),
      tab_3_content := Some("Khách hàng phải duy trì đăng nhập ít nhất 1 lần sau khi đăng ký. Không xóa app trong vòng 7 ngày đầu.")),
    Project(
      id := "home-credit",
      name := "HomeCredit",
      logo_url := "https://picsum.photos/100/100?random=4",
      strengths := [
        "Hoa hồng cao, trả ngay sau giải ngân",
        "Duyệt tự động 10p, chỉ cần CCCD",
        "Hỗ trợ nợ xấu, chạy code nội bộ",
        "Theo dõi & push hồ sơ luồng trực tiếp",
        "Không qua bên thứ 3",
        "Không ảnh hưởng code chính thống"],
      register_link := "#",
      group_link := "https://zalo.me/g/oucpop180",
      contact_phone := "0888979809",
      short_description := "Tài chính tiêu dùng phổ thông. Duyệt hồ sơ cực nhanh chỉ 10 phút.",
      popup_content := "HomeCredit là đơn vị tài chính lâu đời với quy trình thẩm định linh hoạt. Sản phẩm đa dạng từ vay tiền mặt đến thẻ tín dụng.",
      priority := 4,
      enabled := true,
      commission_policy := Some("- Vay tiền mặt: 4.5% khoản vay\n- Thẻ tín dụng: 400.000đ/thẻ kích hoạt"),
      conditions := None,
      tab_1_title := Some("Hồ sơ vay"),
      tab_1_content := Some("- CCCD gắn chip chính chủ\n- Giấy phép lái xe hoặc Cà vẹt xe (nếu có)\n- Chứng minh thu nhập (Sao kê/Bảng lương) để tăng hạn mức"),
      tab_2_title := Some("Thời gian xử lý"),
      tab_2_content := Some("Hệ thống duyệt tự động trong 10-15 phút. Giải ngân trực tiếp vào tài khoản ngân hàng của khách."),
      tab_3_title := Some("Đối tượng khách hàng"),
      tab_3_content := Some("Khách hàng từ 20 - 60 tuổi. Không có nợ xấu tại thời điểm tra cứu CIC.")),
    Project(
      id := "mfast",
      name := "MFast",
      logo_url := "https://picsum.photos/100/100?random=5",
      strengths := [
        "Hoa hồng cao, trả cực nhanh",
        "Sản phẩm đa dạng (Vay, Thẻ, Bảo hiểm)",
        "Cập nhật đơn hàng realtime 24/7",
        "Có đội ngũ support hỗ trợ tận tình",
        "Trả góp 0% với điện máy"],
      register_link := "#",
      group_link := "https://zalo.me/g/xaftmv369",
      contact_phone := "0888979809",
      short_description := "Nền tảng tài chính Affiliate, tăng thu nhập thụ động.",
      popup_content := "MFast kết nối Sales với nhiều dự án tài chính (Mirae Asset, MCredit, PTF, CIMB...). Cơ chế trả thưởng linh hoạt, rút tiền về ví ngay lập tức.",
      priority := 5,
      enabled := true,
      commission_policy := Some("Hoa hồng chi trả theo từng dự án con trên app MFast. Trung bình từ 300k - 2tr/hồ sơ thành công."),
      conditions := None,
      tab_1_title := Some("Sản phẩm triển khai"),
      tab_1_content := Some("- Tài chính: Vay tiêu dùng, Mở thẻ tín dụng\n- Bảo hiểm: Phi nhân thọ (Xe máy, Ô tô)\n- Tiện ích: Mở tài khoản ngân hàng số"),
      tab_2_title := Some("Cơ chế thanh toán"),
      tab_2_content := Some("Hoa hồng được cộng vào ví MFast ngay khi trạng thái hồ sơ thành công. Rút về ngân hàng 24/7 trong 5 phút."),
      tab_3_title := Some("Hỗ trợ đào tạo"),
      tab_3_content := Some("Có các buổi Zoom đào tạo nghiệp vụ hàng tuần. Group Zalo hỗ trợ xử lý hồ sơ khó.")),
    Project(
      id := "cnext",
      name := "Cnext",
      logo_url := "https://picsum.photos/100/100?random=6",
      strengths := [
        "Hoa hồng cao, trả thứ 2 hàng tuần",
        "Sản phẩm: Thẻ tín dụng, Vay tiêu dùng",
        "Có đội ngũ support hỗ trợ tận tình",
        "Mở tài khoản bank dễ dàng"],
      register_link := "#",
      group_link := "https://zalo.me/g/azzwaa888",
      contact_phone := "0888979809",
      short_description := "Giải pháp tài chính công nghệ. Thanh toán hoa hồng đều đặn hàng tuần.",
      popup_content := "Cnext tập trung vào các sản phẩm mở thẻ tín dụng (VPBank, VIB, Cake...) và vay tiêu dùng qua app.",
      priority := 6,
      enabled := true,
      commission_policy := Some("Thanh toán vào thứ 2 hàng tuần. Hoa hồng từ 300.000đ đến 1.500.000đ tùy sản phẩm."),
      conditions := None,
      tab_1_title := Some("Danh sách đối tác"),
      tab_1_content := Some("VPBank, VIB, TPBank, Cake by VPBank, KBank..."),
      tab_2_title := Some("Quy trình đối soát"),
      tab_2_content := Some("Chốt số liệu vào chủ nhật hàng tuần. Thanh toán vào thứ 2 tuần kế tiếp."),
      tab_3_title := Some("Lưu ý chạy số"),
      tab_3_content := Some("Nghiêm cấm các hành vi gian lận (Cheat), tự đăng ký chéo. Tuân thủ quy định về nội dung quảng cáo."))
  ]

  const MOCK_NEWS: seq<NewsItem> := [
    NewsItem(
      "1",
      "Lãi suất ngân hàng hôm nay: Big 4 đồng loạt giảm",
      "Cập nhật lãi suất tiền gửi và cho vay mới nhất từ các ngân hàng lớn.",
      Some("Chi tiết về việc 4 ngân hàng lớn giảm lãi suất..."),
      "2023-10-25",
      News,
      "https://picsum.photos/400/200?random=10"),
    NewsItem(
      "2",
      "Cách tính điểm tín dụng CIC chuẩn 2025",
      "Hướng dẫn chi tiết cách đọc báo cáo CIC và cải thiện điểm số.",
      Some("Điểm tín dụng CIC là yếu tố then chốt..."),
      "2023-10-24",
      Knowledge,
      "https://picsum.photos/400/200?random=11"),
    NewsItem(
      "3",
      "VIB ra mắt thẻ tín dụng Super Card mới",
      "Hoàn tiền đến 15% cho mua sắm trực tuyến và du lịch.",
      Some("VIB vừa công bố dòng thẻ mới với nhiều ưu đãi..."),
      "2023-10-22",
      Policy,
      "https://picsum.photos/400/200?random=12")
  ]

  const MOCK_CHANNEL_RESOURCES: seq<ChannelResource> := [
    ChannelResource(
      "1",
      "Hướng dẫn xây tệp khách hàng",
      "Xác định chân dung khách hàng (Công nhân, Văn phòng, hay kinh doanh tự do). Sử dụng Zalo OA để chăm sóc lại khách hàng cũ.",
      GUIDE,
      None,
      None,
      Some("Users")),
    ChannelResource(
      "2",
      "Tài nguyên Content & Kịch bản",
      "Các mẫu kịch bản tư vấn và hình ảnh quảng cáo được cập nhật hàng tuần.",
      SCRIPT,
      Some("#"),
      None,
      Some("FileText")),
    ChannelResource(
      "3",
      "Chiến lược Zalo Marketing 0 đồng",
      "Cách tối ưu profile và kéo traffic tự nhiên từ các hội nhóm.",
      GUIDE,
      None,
      Some("Nội dung chi tiết chiến lược..."),
      Some("Share2"))
  ]

  const MOCK_TEMPLATES: seq<LandingPageTemplate> := [
    LandingPageTemplate(
      "1",
      "Phễu bán hàng Basic",
      "Giao diện tối ưu chuyển đổi cho sản phẩm vay tín chấp. Form đăng ký nổi bật.",
      "https://picsum.photos/400/300?random=20",
      Some("#"),
      Finance),
    LandingPageTemplate(
      "2",
      "Phễu bán hàng Pro",
      "Thiết kế sang trọng, tích hợp so sánh các dòng thẻ và ưu đãi hoàn tiền.",
      "https://picsum.photos/400/300?random=21",
      Some("#"),
      Finance),
    LandingPageTemplate(
      "3",
      "Phễu bán hàng Standard",
      "Dành cho Leader muốn xây dựng hệ thống. Giới thiệu chính sách hoa hồng rõ ràng.",
      "https://picsum.photos/400/300?random=22",
      Some("#"),
      General)
  ]

  // ---------------------------------------------------------------------------
  // Facts about the seed
  // ---------------------------------------------------------------------------

  const SEED_PROJECT_IDS: seq<string> := ["fe-tsa", "vib-max", "tnex", "home-credit", "mfast", "cnext"]

  /** The seed's ids, priorities and enabled flags, position by position. */
  lemma SeedProjectFields()
    ensures |INITIAL_PROJECTS| == 6
    ensures forall i :: 0 <= i < 6 ==> INITIAL_PROJECTS[i].id == SEED_PROJECT_IDS[i]
    ensures forall i :: 0 <= i < 6 ==> INITIAL_PROJECTS[i].priority == i + 1 && INITIAL_PROJECTS[i].enabled
  {
    var s := INITIAL_PROJECTS;
    assert s[0].id == "fe-tsa" && s[0].priority == 1 && s[0].enabled;
    assert s[1].id == "vib-max" && s[1].priority == 2 && s[1].enabled;
    assert s[2].id == "tnex" && s[2].priority == 3 && s[2].enabled;
    assert s[3].id == "home-credit" && s[3].priority == 4 && s[3].enabled;
    assert s[4].id == "mfast" && s[4].priority == 5 && s[4].enabled;
    assert s[5].id == "cnext" && s[5].priority == 6 && s[5].enabled;
  }

  /** Priorities equal to position + 1 are in listing order. */
  lemma PositionalPrioritiesSorted(s: seq<Project>)
    requires forall i :: 0 <= i < |s| ==> s[i].priority == i + 1
    ensures SortedByPriority(s)
  {
  }

  /** Six projects with distinct ids, priorities 1..6 in list order, all enabled. */
  lemma SeedProjectsShape()
    ensures |INITIAL_PROJECTS| == 6
    ensures forall i :: 0 <= i < |INITIAL_PROJECTS| ==>
      INITIAL_PROJECTS[i].priority == i + 1 && INITIAL_PROJECTS[i].enabled
    ensures UniqueIds(INITIAL_PROJECTS, ProjectId)
    ensures SortedByPriority(INITIAL_PROJECTS)
  {
    SeedProjectFields();
    PositionalPrioritiesSorted(INITIAL_PROJECTS);
    var ids := SEED_PROJECT_IDS;
    assert forall i, j :: 0 <= i < j < 6 ==> ids[i] != ids[j] by {
      assert ids[0][0] == 'f' && ids[1][0] == 'v' && ids[2][0] == 't';
      assert ids[3][0] == 'h' && ids[4][0] == 'm' && ids[5][0] == 'c';
    }
  }

  /** Every seed project has more than three strengths, so every card truncates to exactly three. */
  lemma SeedCardsTruncate()
    ensures forall i :: 0 <= i < |INITIAL_PROJECTS| ==> |INITIAL_PROJECTS[i].strengths| > CARD_STRENGTHS
    ensures forall i :: 0 <= i < |INITIAL_PROJECTS| ==>
      DisplayStrengths(INITIAL_PROJECTS[i]) == INITIAL_PROJECTS[i].strengths[..CARD_STRENGTHS]
  {
    forall i | 0 <= i < |INITIAL_PROJECTS|
      ensures DisplayStrengths(INITIAL_PROJECTS[i]) == INITIAL_PROJECTS[i].strengths[..CARD_STRENGTHS]
    {
      var r := DisplayStrengths(INITIAL_PROJECTS[i]);
      assert |r| == CARD_STRENGTHS;
    }
  }

  /** Every seed project fills all three popup tabs, so the popup shows all of them in order. */
  lemma SeedPopupsShowAllTabs()
    ensures forall i :: 0 <= i < |INITIAL_PROJECTS| ==>
      VisibleTabs(INITIAL_PROJECTS[i]) == CandidateTabs(INITIAL_PROJECTS[i])
  {
    forall i | 0 <= i < |INITIAL_PROJECTS|
      ensures VisibleTabs(INITIAL_PROJECTS[i]) == CandidateTabs(INITIAL_PROJECTS[i])
    {
      var c := CandidateTabs(INITIAL_PROJECTS[i]);
      assert forall k :: 0 <= k < |c| ==> Shown(c[k]);
      FilterAll(c, Shown);
    }
  }

  /** `a` sorts no later than `b` as strings (ISO dates compare this way). */
  predicate LexLe(a: string, b: string)
    decreases |a|
  {
    a == [] || (b != [] && (a[0] < b[0] || (a[0] == b[0] && LexLe(a[1..], b[1..]))))
  }

  /** Strings that agree up to position k and differ there are ordered by that character. */
  lemma {:induction false} LexLeAtFirstDifference(a: string, b: string, k: nat)
    requires k < |a| && k < |b| && a[..k] == b[..k] && a[k] < b[k]
    ensures LexLe(a, b)
    decreases k
  {
    if k > 0 {
      assert a[0] == a[..k][0] == b[..k][0] == b[0];
      assert a[1..][..k - 1] == a[1..k] == a[..k][1..];
      assert b[1..][..k - 1] == b[1..k] == b[..k][1..];
      LexLeAtFirstDifference(a[1..], b[1..], k - 1);
    }
  }

  /** The seed news is numbered 1..3. */
  lemma SeedNewsIds()
    ensures DenseIds(MOCK_NEWS, NewsId)
  {
    assert DecimalString(1) == "1" && DecimalString(2) == "2" && DecimalString(3) == "3";
  }

  /** The seed news is listed newest first. */
  lemma SeedNewsNewestFirst()
    ensures forall i :: 0 < i < |MOCK_NEWS| ==> LexLe(MOCK_NEWS[i].date, MOCK_NEWS[i - 1].date)
  {
    var d0, d1, d2 := MOCK_NEWS[0].date, MOCK_NEWS[1].date, MOCK_NEWS[2].date;
    assert d1[..9] == d0[..9] && d2[..9] == d1[..9];
    LexLeAtFirstDifference(d1, d0, 9);
    LexLeAtFirstDifference(d2, d1, 9);
  }

  /** Channel resources and templates are numbered 1..3 too, so on a fresh seed each add button
      builds id "4" and saving that draft appends a fourth record. */
  lemma SeedAddBuildsFour(today: string)
    ensures DenseIds(MOCK_CHANNEL_RESOURCES, ChannelId) && DenseIds(MOCK_TEMPLATES, TemplateId)
    ensures NewNewsDraft(|MOCK_NEWS|, today).id == "4"
    ensures NewChannelDraft(|MOCK_CHANNEL_RESOURCES|).id == "4"
    ensures NewTemplateDraft(|MOCK_TEMPLATES|).id == "4"
    ensures |Save(MOCK_NEWS, NewsId, NewNewsDraft(|MOCK_NEWS|, today))| == 4
    ensures |Save(MOCK_CHANNEL_RESOURCES, ChannelId, NewChannelDraft(|MOCK_CHANNEL_RESOURCES|))| == 4
    ensures |Save(MOCK_TEMPLATES, TemplateId, NewTemplateDraft(|MOCK_TEMPLATES|))| == 4
  {
    SeedNewsIds();
    DenseIdsNewIsFresh(MOCK_NEWS, NewsId, NewNewsDraft(|MOCK_NEWS|, today));
    DenseIdsNewIsFresh(MOCK_CHANNEL_RESOURCES, ChannelId, NewChannelDraft(|MOCK_CHANNEL_RESOURCES|));
    DenseIdsNewIsFresh(MOCK_TEMPLATES, TemplateId, NewTemplateDraft(|MOCK_TEMPLATES|));
  }

  /** Deleting news "1" from the seed and then adding a news item builds id "3", which is still
      taken: saving the new draft overwrites the third seed item and the list stays at two. */
  lemma SeedNewsCollision(today: string)
    ensures var afterDelete := Delete(MOCK_NEWS, NewsId, "1", true);
      var draft := NewNewsDraft(|afterDelete|, today);
      |afterDelete| == 2 && draft.id == "3"
      && |Save(afterDelete, NewsId, draft)| == 2
      && MOCK_NEWS[2] !in Save(afterDelete, NewsId, draft)
  {
    SeedNewsIds();
    var draft := NewNewsDraft(2, today);
    assert draft.id == DecimalString(|MOCK_NEWS|);
    CollisionAfterDelete(MOCK_NEWS, NewsId, 1, draft);
    assert draft != MOCK_NEWS[2] by {
      assert draft.title != MOCK_NEWS[2].title;
    }
  }

  /** Every seed resource names one of the three known icons, so none falls back to the check mark. */
  lemma SeedIconsKnown()
    ensures forall i :: 0 <= i < |MOCK_CHANNEL_RESOURCES| ==>
      MOCK_CHANNEL_RESOURCES[i].icon_name in {Some("Users"), Some("FileText"), Some("Share2")}
    ensures forall i :: 0 <= i < |MOCK_CHANNEL_RESOURCES| ==>
      ChannelIcon(MOCK_CHANNEL_RESOURCES[i].icon_name) != CheckCircle2Icon
  {
  }
}
